/** Outgoing links of many memories at once, collapsed per target (`linked_for_many`), and read-side decay. */
module Linking {
  import opened RealArith
  import opened Lifecycle
  import opened Collections
  import opened Tables
  import opened Associations
  import opened Bridges

  // A target of strong links: MAX(weight) and MAX(last_co_retrieval), taken independently.
  datatype Linked = Linked(id: Id, weight: real, last: Option<int>)

  ghost predicate IsMaxTime(assoc: Links, sources: set<Id>, minWeight: real, t: Id, last: Option<int>) {
    match last
    case None => forall s: Id :: s in sources && Strong(assoc, minWeight, s, t) ==> assoc[(s, t)].lastCoRetrieval.None?
    case Some(m) =>
      && (exists s: Id :: s in sources && Strong(assoc, minWeight, s, t) && assoc[(s, t)].lastCoRetrieval == Some(m))
      && (forall s: Id :: s in sources && Strong(assoc, minWeight, s, t) && assoc[(s, t)].lastCoRetrieval.Some? ==>
            assoc[(s, t)].lastCoRetrieval.value <= m)
  }

  ghost predicate IsMaxWeight(assoc: Links, sources: set<Id>, minWeight: real, t: Id, w: real) {
    && (exists s: Id :: s in sources && Strong(assoc, minWeight, s, t) && assoc[(s, t)].weight == w)
    && (forall s: Id :: s in sources && Strong(assoc, minWeight, s, t) ==> assoc[(s, t)].weight <= w)
  }

  ghost predicate IsCollapsed(assoc: Links, sources: set<Id>, minWeight: real, x: Linked) {
    IsMaxWeight(assoc, sources, minWeight, x.id, x.weight) && IsMaxTime(assoc, sources, minWeight, x.id, x.last)
  }

  /** The collapsed link of a target is unique. */
  lemma CollapseIsUnique(assoc: Links, sources: set<Id>, minWeight: real, x: Linked, y: Linked)
    requires IsCollapsed(assoc, sources, minWeight, x) && IsCollapsed(assoc, sources, minWeight, y) && x.id == y.id
    ensures x == y
  {
    var s: Id :| s in sources && Strong(assoc, minWeight, s, x.id) && assoc[(s, x.id)].weight == x.weight;
    var t: Id :| t in sources && Strong(assoc, minWeight, t, x.id) && assoc[(t, x.id)].weight == y.weight;
  }

  // One source more.
  method CollapseTarget(assoc: Links, sources: seq<Id>, minWeight: real, t: Id) returns (x: Linked)
    requires exists s: Id :: s in sources && Strong(assoc, minWeight, s, t)
    ensures x.id == t && IsCollapsed(assoc, Elems(sources), minWeight, x)
  {
    var seen, w, last := false, 0.0, None;
    for i := 0 to |sources|
      invariant seen <==> exists s: Id :: s in Elems(sources[..i]) && Strong(assoc, minWeight, s, t)
      invariant seen ==> IsMaxWeight(assoc, Elems(sources[..i]), minWeight, t, w)
      invariant IsMaxTime(assoc, Elems(sources[..i]), minWeight, t, last)
    {
      var s := sources[i];
      assert Elems(sources[..i + 1]) == Elems(sources[..i]) + {s};
      if Strong(assoc, minWeight, s, t) {
        var e := assoc[(s, t)];
        w := if !seen || w < e.weight then e.weight else w;
        last := match (last, e.lastCoRetrieval)
                case (_, None) => last
                case (None, Some(_)) => e.lastCoRetrieval
                case (Some(a), Some(b)) => if a < b then Some(b) else last;
        seen := true;
      }
    }
    assert sources[..|sources|] == sources;
    x := Linked(t, w, last);
  }

  ghost predicate HasStrongLink(assoc: Links, sources: seq<Id>, minWeight: real, t: Id) {
    exists s: Id :: s in sources && Strong(assoc, minWeight, s, t)
  }

  // The targets of strong links from the sources, each with its collapsed link.
  method CollapseAll(assoc: Links, sources: seq<Id>, minWeight: real) returns (byId: map<Id, Linked>)
    ensures forall t: Id :: t in byId <==> HasStrongLink(assoc, sources, minWeight, t)
    ensures forall t: Id :: t in byId ==> byId[t].id == t && IsCollapsed(assoc, Elems(sources), minWeight, byId[t])
  {
    var found := set e | e in assoc && e.0 in sources && assoc[e].weight >= minWeight :: e.1;
    forall t: Id
      ensures t in found <==> HasStrongLink(assoc, sources, minWeight, t)
    {
      if HasStrongLink(assoc, sources, minWeight, t) {
        var s: Id :| s in sources && Strong(assoc, minWeight, s, t);
        assert (s, t) in assoc && (s, t).1 in found;
      }
      if t in found {
        var e :| e in assoc && e.0 in sources && assoc[e].weight >= minWeight && e.1 == t;
        assert Strong(assoc, minWeight, e.0, t);
      }
    }
    byId := map[];
    var left := found;
    while left != {}
      invariant left <= found && byId.Keys == found - left
      invariant forall t: Id :: t in byId ==> byId[t].id == t && IsCollapsed(assoc, Elems(sources), minWeight, byId[t])
      decreases left
    {
      var t :| t in left;
      var x := CollapseTarget(assoc, sources, minWeight, t);
      byId, left := byId[t := x], left - {t};
    }
  }

  ghost predicate HeaviestFirst(linked: seq<Linked>) {
    forall i, j :: 0 <= i < j < |linked| ==> linked[i].id != linked[j].id && linked[j].weight <= linked[i].weight
  }

  // The second query: the rows of the user among the targets, in their order.
  method KeepOwned(db: Db, user: string, all: seq<Linked>) returns (linked: seq<Linked>)
    requires HeaviestFirst(all)
    ensures HeaviestFirst(linked)
    ensures forall i :: 0 <= i < |linked| ==> linked[i] in all && Owns(db, user, linked[i].id)
    ensures forall j :: 0 <= j < |all| && Owns(db, user, all[j].id) ==> all[j] in linked
  {
    linked := [];
    for k := 0 to |all|
      invariant HeaviestFirst(linked)
      invariant forall i :: 0 <= i < |linked| ==> linked[i] in all && Owns(db, user, linked[i].id)
      invariant forall i, j :: 0 <= i < |linked| && k <= j < |all| ==> linked[i].id != all[j].id && all[j].weight <= linked[i].weight
      invariant forall j :: 0 <= j < k && Owns(db, user, all[j].id) ==> all[j] in linked
    {
      var x := all[k];
      if x.id in db.mem && db.mem[x.id].user == user {
        linked := linked + [x];
      }
    }
  }

  /** Every memory of the user that a source links to strongly, once, with its collapsed link, heaviest first. */
  method LinkedForMany(db: Db, user: string, sources: seq<Id>, minWeight: real) returns (linked: seq<Linked>)
    ensures HeaviestFirst(linked)
    ensures forall i :: 0 <= i < |linked| ==>
      Owns(db, user, linked[i].id) && IsCollapsed(db.assoc, Elems(sources), minWeight, linked[i])
    ensures forall t: Id :: Owns(db, user, t) && HasStrongLink(db.assoc, sources, minWeight, t) ==>
      exists i :: 0 <= i < |linked| && linked[i].id == t
  {
    var byId := CollapseAll(db.assoc, sources, minWeight);
    var targets := EnumerateFalling(byId.Keys, (t: Id) => if t in byId then byId[t].weight else 0.0);
    assert forall i :: 0 <= i < |targets| ==> targets[i] in targets && targets[i] in byId;
    var all := seq(|targets|, i requires 0 <= i < |targets| => byId[targets[i]]);
    linked := KeepOwned(db, user, all);
    forall i | 0 <= i < |linked|
      ensures IsCollapsed(db.assoc, Elems(sources), minWeight, linked[i])
    {
      assert linked[i] in all;
    }
    forall t: Id | Owns(db, user, t) && HasStrongLink(db.assoc, sources, minWeight, t)
      ensures exists i :: 0 <= i < |linked| && linked[i].id == t
    {
      assert t in targets;
      var j :| 0 <= j < |targets| && targets[j] == t;
      assert all[j].id == t;
    }
  }

  // Equation 10 at read time; a link without a timestamp does not decay.
  function LiveWeight(weight: real, last: Option<int>, now: int, cfg: Config): real
    requires cfg.tauDays != 0.0
  {
    match last
    case Some(t) => DecayAssociationWeight(weight, t, now, cfg)
    case None => weight
  }

  /**
    When all parallel links carry a timestamp, fetching by stored weight and collapsing with
    independent maxima never drops a target that some single link's own decayed weight admits.
   */
  lemma CollapseNeverDrops(assoc: Links, sources: set<Id>, minWeight: real, s: Id, x: Linked, now: int, cfg: Config)
    requires GoodExp(cfg.exp) && cfg.tauDays > 0.0
    requires s in sources && (s, x.id) in assoc && assoc[(s, x.id)].weight >= 0.0
    requires assoc[(s, x.id)].lastCoRetrieval.Some?
    requires LiveWeight(assoc[(s, x.id)].weight, assoc[(s, x.id)].lastCoRetrieval, now, cfg) >= minWeight
    ensures Strong(assoc, minWeight, s, x.id)
    ensures IsCollapsed(assoc, sources, minWeight, x) ==> LiveWeight(x.weight, x.last, now, cfg) >= minWeight
  {
    var e := assoc[(s, x.id)];
    EdgeDecayIsMonotone(e.weight, e.lastCoRetrieval.value, e.weight, e.lastCoRetrieval.value, now, cfg);
    if IsCollapsed(assoc, sources, minWeight, x) {
      assert x.last.Some? && e.lastCoRetrieval.value <= x.last.value && e.weight <= x.weight;
      EdgeDecayIsMonotone(e.weight, e.lastCoRetrieval.value, x.weight, x.last.value, now, cfg);
    }
  }

  // The strong links from the sources to `t` all carry a timestamp, or none does.
  ghost predicate UniformlyDated(assoc: Links, sources: set<Id>, minWeight: real, t: Id) {
    forall r: Id, s: Id :: r in sources && s in sources && Strong(assoc, minWeight, r, t) && Strong(assoc, minWeight, s, t) ==>
      assoc[(r, t)].lastCoRetrieval.Some? == assoc[(s, t)].lastCoRetrieval.Some?
  }

  // Some single link to the target is admitted by its own decayed weight.
  ghost predicate AdmittedAlone(assoc: Links, sources: set<Id>, minWeight: real, t: Id, now: int, cfg: Config)
    requires cfg.tauDays != 0.0
  {
    exists s: Id :: s in sources && (s, t) in assoc
      && LiveWeight(assoc[(s, t)].weight, assoc[(s, t)].lastCoRetrieval, now, cfg) >= minWeight
  }

  ghost predicate KeptAt(assoc: Links, sources: set<Id>, minWeight: real, x: Linked, now: int, cfg: Config)
    requires cfg.tauDays != 0.0
  {
    AdmittedAlone(assoc, sources, minWeight, x.id, now, cfg) ==> LiveWeight(x.weight, x.last, now, cfg) >= minWeight
  }

  predicate SmallAt(exp: real -> real, e: real, y: real) {
    y > 0.0 && exp(-y) < e
  }

  ghost predicate SmallSomewhere(exp: real -> real, e: real) {
    exists y: real :: SmallAt(exp, e, y)
  }

  // The exponential gets arbitrarily small.
  ghost predicate Vanishes(exp: real -> real) {
    forall e: real :: e > 0.0 ==> SmallSomewhere(exp, e)
  }

  lemma NegativeStaysNegative(w: real, f: real)
    requires w < 0.0 && f > 0.0
    ensures w * f < 0.0
  {
    StrictProductOrder(w, 0.0, f);
  }

  // A link admitted at some instant is strong, and if undated so is the collapsed link while it is undated.
  lemma AdmittedIsStrong(w: real, last: Option<int>, minWeight: real, now: int, cfg: Config)
    requires GoodExp(cfg.exp) && cfg.tauDays > 0.0 && minWeight > 0.0 && LiveWeight(w, last, now, cfg) >= minWeight
    ensures w >= minWeight
  {
    if last.Some? {
      var f := cfg.exp(-DaysSince(last.value, now) / cfg.tauDays);
      if w < 0.0 {
        NegativeStaysNegative(w, f);
      } else {
        EdgeDecayIsMonotone(w, last.value, w, last.value, now, cfg);
      }
    }
  }

  lemma UniformIsKept(assoc: Links, sources: set<Id>, minWeight: real, x: Linked, now: int, cfg: Config)
    requires GoodExp(cfg.exp) && cfg.tauDays > 0.0 && minWeight > 0.0
    requires IsCollapsed(assoc, sources, minWeight, x) && UniformlyDated(assoc, sources, minWeight, x.id)
    ensures KeptAt(assoc, sources, minWeight, x, now, cfg)
  {
    if AdmittedAlone(assoc, sources, minWeight, x.id, now, cfg) {
      var s: Id :| s in sources && (s, x.id) in assoc
        && LiveWeight(assoc[(s, x.id)].weight, assoc[(s, x.id)].lastCoRetrieval, now, cfg) >= minWeight;
      AdmittedIsStrong(assoc[(s, x.id)].weight, assoc[(s, x.id)].lastCoRetrieval, minWeight, now, cfg);
      assert Strong(assoc, minWeight, s, x.id);
      if assoc[(s, x.id)].lastCoRetrieval.Some? {
        CollapseNeverDrops(assoc, sources, minWeight, s, x, now, cfg);
      } else {
        assert x.last.None?;
      }
    }
  }

  // The first whole second at which at least `days` days have passed since `last`.
  function DaysLater(last: int, days: real): (now: int)
    requires days >= 0.0
    ensures DaysSince(last, now) >= days
  {
    var n := (days * SECONDS_PER_DAY).Floor + 1;
    DaysOf(n, days);
    last + n
  }

  lemma DaysOf(n: int, days: real)
    requires n as real >= days * SECONDS_PER_DAY && n >= 0
    ensures n as real / SECONDS_PER_DAY >= days
  {
  }

  function Share(part: real, w: real): (e: real)
    requires part > 0.0 && w > 0.0
    ensures e > 0.0 && w * e == part
  {
    part / w
  }

  // A dated link falls below any threshold in time.
  lemma DecaysAway(w: real, last: int, minWeight: real, cfg: Config) returns (now: int)
    requires GoodExp(cfg.exp) && Vanishes(cfg.exp) && cfg.tauDays > 0.0 && minWeight > 0.0 && w > 0.0
    ensures DecayAssociationWeight(w, last, now, cfg) < minWeight
  {
    var e := Share(minWeight, w);
    assert SmallSomewhere(cfg.exp, e);
    var y: real :| SmallAt(cfg.exp, e, y);
    PositiveProduct(y, cfg.tauDays);
    now := DaysLater(last, y * cfg.tauDays);
    DecayedPast(w, last, now, y, e, cfg);
  }

  lemma DecayedPast(w: real, last: int, now: int, y: real, e: real, cfg: Config)
    requires GoodExp(cfg.exp) && cfg.tauDays > 0.0 && w > 0.0 && cfg.exp(-y) < e
    requires DaysSince(last, now) >= y * cfg.tauDays
    ensures DecayAssociationWeight(w, last, now, cfg) < w * e
  {
    var d := DaysSince(last, now);
    var x := -d / cfg.tauDays;
    assert x * cfg.tauDays == -d;
    assert x <= -y by {
      if -y < x {
        StrictProductOrder(-y, x, cfg.tauDays);
      }
    }
    assert cfg.exp(x) <= cfg.exp(-y);
    StrictProductOrder(cfg.exp(x), e, w);
  }

  lemma MixedIsDropped(assoc: Links, sources: set<Id>, minWeight: real, x: Linked, cfg: Config) returns (now: int)
    requires GoodExp(cfg.exp) && Vanishes(cfg.exp) && cfg.tauDays > 0.0 && minWeight > 0.0
    requires IsCollapsed(assoc, sources, minWeight, x) && !UniformlyDated(assoc, sources, minWeight, x.id)
    ensures !KeptAt(assoc, sources, minWeight, x, now, cfg)
  {
    var r: Id, s: Id :| r in sources && s in sources && Strong(assoc, minWeight, r, x.id) && Strong(assoc, minWeight, s, x.id)
      && assoc[(r, x.id)].lastCoRetrieval.None? && assoc[(s, x.id)].lastCoRetrieval.Some?;
    now := DecaysAway(x.weight, x.last.value, minWeight, cfg);
    assert LiveWeight(assoc[(r, x.id)].weight, assoc[(r, x.id)].lastCoRetrieval, now, cfg) >= minWeight;
  }

  /**
    Collapsing the strong links to a target with independent maxima never drops, at any instant, a
    target that one of the links admits by its own decayed weight, if and only if those links are all
    dated or all undated.  Ingest writes undated links, co-retrieval dated ones.
   */
  lemma CollapseIsSafeIffUniformlyDated(assoc: Links, sources: set<Id>, minWeight: real, x: Linked, cfg: Config)
    requires GoodExp(cfg.exp) && Vanishes(cfg.exp) && cfg.tauDays > 0.0 && minWeight > 0.0
    requires IsCollapsed(assoc, sources, minWeight, x)
    ensures (forall now: int :: KeptAt(assoc, sources, minWeight, x, now, cfg)) <==>
            UniformlyDated(assoc, sources, minWeight, x.id)
  {
    if UniformlyDated(assoc, sources, minWeight, x.id) {
      forall now: int
        ensures KeptAt(assoc, sources, minWeight, x, now, cfg)
      {
        UniformIsKept(assoc, sources, minWeight, x, now, cfg);
      }
    } else {
      var now := MixedIsDropped(assoc, sources, minWeight, x, cfg);
    }
  }

  /**
    A witness: a heavy link that never decays and a lighter dated one collapse into a heavy dated
    link, which decays below the threshold.
   */
  lemma CollapseCanDropAnUndatedLink(cfg: Config)
    requires cfg.tauDays != 0.0 && cfg.exp(-DaysSince(0, 86400) / cfg.tauDays) < 0.5
    ensures var assoc: Links := map[(0, 9) := Edge(0.6, None), (1, 9) := Edge(0.4, Some(0))];
            var x := Linked(9, 0.6, Some(0));
            && IsCollapsed(assoc, {0, 1}, 0.3, x)
            && LiveWeight(0.6, assoc[(0, 9)].lastCoRetrieval, 86400, cfg) >= 0.3
            && LiveWeight(x.weight, x.last, 86400, cfg) < 0.3
  {
    var assoc: Links := map[(0, 9) := Edge(0.6, None), (1, 9) := Edge(0.4, Some(0))];
    assert Strong(assoc, 0.3, 0, 9) && Strong(assoc, 0.3, 1, 9);
    assert 0.6 * cfg.exp(-DaysSince(0, 86400) / cfg.tauDays) < 0.6 * 0.5;
  }
}
