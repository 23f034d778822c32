/** The association table's writes (`AssociationRepo` in `crates/store/src/repos.rs`). */
module Associations {
  import opened Lifecycle
  import opened Collections
  import opened Tables

  type Links = map<(Id, Id), Edge>

  function Clamp01(x: real): (r: real)
    ensures 0.0 <= r <= 1.0
    ensures (0.0 <= x <= 1.0 ==> r == x) && (x < 0.0 ==> r == 0.0) && (x > 1.0 ==> r == 1.0)
  {
    Max(Min(x, 1.0), 0.0)
  }

  predicate EndpointsExist(db: Db, a: Id, b: Id) {
    a in db.mem && b in db.mem
  }

  // The weight `create_or_strengthen` writes after having read `seen`.
  function Bumped(seen: Option<real>, bump: real): real {
    Clamp01(match seen case Some(w) => w + bump case None => bump)
  }

  function SeenWeight(assoc: Links, a: Id, b: Id): Option<real> {
    if (a, b) in assoc then Some(assoc[(a, b)].weight) else None
  }

  // A foreign-key failure leaves the table alone.
  function CreateOrStrengthen(db: Db, a: Id, b: Id, bump: real, now: int): Db {
    if EndpointsExist(db, a, b)
    then db.(assoc := db.assoc[(a, b) := Edge(Bumped(SeenWeight(db.assoc, a, b), bump), Some(now))])
    else db
  }

  function LinkBoth(db: Db, a: Id, b: Id, bump: real, now: int): Db {
    CreateOrStrengthen(CreateOrStrengthen(db, a, b, bump, now), b, a, bump, now)
  }

  function LinkPairs(db: Db, pairs: seq<(Id, Id)>, bump: real, now: int): Db {
    if pairs == [] then db
    else
      var last := pairs[|pairs| - 1];
      LinkBoth(LinkPairs(db, pairs[..|pairs| - 1], bump, now), last.0, last.1, bump, now)
  }

  // The upsert of `strengthen_pairs`: insert the clamped amount, or add it with a cap.
  function Upsert(assoc: Links, a: Id, b: Id, amount: real, now: int): Links {
    assoc[(a, b) := Edge(if (a, b) in assoc then Min(1.0, assoc[(a, b)].weight + amount) else Clamp01(amount),
                         Some(now))]
  }

  function StrengthenAll(assoc: Links, pairs: seq<(Id, Id)>, amount: real, now: int): Links {
    if pairs == [] then assoc
    else
      var last := pairs[|pairs| - 1];
      var before := StrengthenAll(assoc, pairs[..|pairs| - 1], amount, now);
      Upsert(Upsert(before, last.0, last.1, amount, now), last.1, last.0, amount, now)
  }

  predicate AllEndpointsExist(db: Db, pairs: seq<(Id, Id)>) {
    forall p :: p in pairs ==> EndpointsExist(db, p.0, p.1)
  }

  // One transaction: a missing endpoint rolls the whole batch back.
  function StrengthenPairs(db: Db, pairs: seq<(Id, Id)>, amount: real, now: int): Db {
    if AllEndpointsExist(db, pairs) then db.(assoc := StrengthenAll(db.assoc, pairs, amount, now)) else db
  }

  function Unlinked(db: Db, a: Id, b: Id, bidirectional: bool): Db {
    db.(assoc := map e | e in db.assoc && e != (a, b) && !(bidirectional && e == (b, a)) :: db.assoc[e])
  }

  // All unordered pairs, in the order of the two nested loops.
  function PairsOf(ids: seq<Id>): seq<(Id, Id)> {
    if ids == [] then [] else seq(|ids| - 1, k requires 0 <= k < |ids| - 1 => (ids[0], ids[k + 1])) + PairsOf(ids[1..])
  }

  lemma PairsAreDrawnFrom(ids: seq<Id>)
    ensures forall p :: p in PairsOf(ids) ==> p.0 in ids && p.1 in ids
  {
  }

  method AllPairs(ids: seq<Id>) returns (pairs: seq<(Id, Id)>)
    ensures pairs == PairsOf(ids)
  {
    pairs := [];
    for i := 0 to |ids|
      invariant pairs + PairsOf(ids[i..]) == PairsOf(ids)
    {
      ghost var before := pairs;
      for j := i + 1 to |ids|
        invariant pairs == before + seq(j - i - 1, k requires 0 <= k < j - i - 1 => (ids[i], ids[i + k + 1]))
      {
        pairs := pairs + [(ids[i], ids[j])];
      }
      assert ids[i..][1..] == ids[i + 1..];
      assert pairs + PairsOf(ids[i + 1..]) == before + PairsOf(ids[i..]);
    }
  }

  method LinkDirected(s: Store, a: Id, b: Id, bump: real, now: int)
    modifies s
    ensures s.State() == CreateOrStrengthen(old(s.State()), a, b, bump, now)
  {
    var existing := SeenWeight(s.assoc, a, b);
    var weight := match existing case Some(w) => Clamp01(w + bump) case None => Clamp01(bump);
    if a in s.mem && b in s.mem {
      s.assoc := s.assoc[(a, b) := Edge(weight, Some(now))];
    }
  }

  method LinkAllPairs(s: Store, ids: seq<Id>, bump: real, now: int)
    modifies s
    ensures s.State() == LinkPairs(old(s.State()), PairsOf(ids), bump, now)
  {
    var pairs := AllPairs(ids);
    for k := 0 to |pairs|
      invariant s.State() == LinkPairs(old(s.State()), pairs[..k], bump, now)
    {
      assert pairs[..k + 1][..k] == pairs[..k];
      LinkDirected(s, pairs[k].0, pairs[k].1, bump, now);
      LinkDirected(s, pairs[k].1, pairs[k].0, bump, now);
    }
    assert pairs[..|pairs|] == pairs;
  }

  method StrengthenInTransaction(s: Store, pairs: seq<(Id, Id)>, amount: real, now: int)
    modifies s
    ensures s.State() == StrengthenPairs(old(s.State()), pairs, amount, now)
  {
    var begin := s.assoc;
    for k := 0 to |pairs|
      invariant forall i :: 0 <= i < k ==> EndpointsExist(old(s.State()), pairs[i].0, pairs[i].1)
      invariant s.State() == old(s.State()).(assoc := StrengthenAll(begin, pairs[..k], amount, now))
    {
      var (a, b) := pairs[k];
      if a !in s.mem || b !in s.mem {
        assert !EndpointsExist(old(s.State()), pairs[k].0, pairs[k].1);
        s.assoc := begin;
        return;
      }
      assert pairs[..k + 1][..k] == pairs[..k];
      s.assoc := Upsert(s.assoc, a, b, amount, now);
      s.assoc := Upsert(s.assoc, b, a, amount, now);
    }
    assert pairs[..|pairs|] == pairs;
  }

  // -------------------------------------------------------------------------
  // What every write keeps
  // -------------------------------------------------------------------------

  ghost predicate WeightsInRange(db: Db) {
    forall e :: e in db.assoc ==> 0.0 <= db.assoc[e].weight <= 1.0
  }

  ghost predicate LinksAttached(db: Db) {
    forall e :: e in db.assoc ==> e.0 in db.mem && e.1 in db.mem
  }

  ghost predicate SoundLinks(db: Db) {
    WeightsInRange(db) && LinksAttached(db)
  }

  ghost predicate Mirrored(assoc: Links, a: Id, b: Id) {
    (a, b) in assoc ==> (b, a) in assoc && assoc[(b, a)].weight == assoc[(a, b)].weight
  }

  ghost predicate Symmetric(assoc: Links) {
    forall a, b :: Mirrored(assoc, a, b)
  }

  // Both links between `a` and `b` carry weight `w`; nothing else differs in weight.
  ghost predicate PairSet(before: Links, after: Links, a: Id, b: Id) {
    && (a, b) in after && (b, a) in after && after[(a, b)].weight == after[(b, a)].weight
    && forall c, d :: (c, d) != (a, b) && (c, d) != (b, a) ==>
         ((c, d) in before <==> (c, d) in after)
         && ((c, d) in before ==> after[(c, d)].weight == before[(c, d)].weight)
  }

  lemma PairSetKeepsSymmetry(before: Links, after: Links, a: Id, b: Id)
    requires Symmetric(before) && PairSet(before, after, a, b)
    ensures Symmetric(after)
  {
    forall c, d
      ensures Mirrored(after, c, d)
    {
      assert Mirrored(before, c, d);
    }
  }

  lemma LinkBothKeeps(db: Db, a: Id, b: Id, bump: real, now: int)
    ensures SoundLinks(db) ==> SoundLinks(LinkBoth(db, a, b, bump, now))
    ensures Symmetric(db.assoc) ==> Symmetric(LinkBoth(db, a, b, bump, now).assoc)
  {
    if Symmetric(db.assoc) && EndpointsExist(db, a, b) {
      assert Mirrored(db.assoc, a, b) && Mirrored(db.assoc, b, a);
      PairSetKeepsSymmetry(db.assoc, LinkBoth(db, a, b, bump, now).assoc, a, b);
    }
  }

  lemma {:induction false} LinkPairsKeeps(db: Db, pairs: seq<(Id, Id)>, bump: real, now: int)
    ensures var after := LinkPairs(db, pairs, bump, now);
            && after == db.(assoc := after.assoc)
            && (SoundLinks(db) ==> SoundLinks(after))
            && (Symmetric(db.assoc) ==> Symmetric(after.assoc))
  {
    if pairs != [] {
      var last := pairs[|pairs| - 1];
      LinkPairsKeeps(db, pairs[..|pairs| - 1], bump, now);
      LinkBothKeeps(LinkPairs(db, pairs[..|pairs| - 1], bump, now), last.0, last.1, bump, now);
    }
  }

  lemma StrengthenOneKeeps(db: Db, a: Id, b: Id, amount: real, now: int)
    requires amount >= 0.0 && EndpointsExist(db, a, b)
    ensures var after := db.(assoc := Upsert(Upsert(db.assoc, a, b, amount, now), b, a, amount, now));
            && (SoundLinks(db) ==> SoundLinks(after))
            && (Symmetric(db.assoc) ==> Symmetric(after.assoc))
  {
    if Symmetric(db.assoc) {
      assert Mirrored(db.assoc, a, b) && Mirrored(db.assoc, b, a);
      PairSetKeepsSymmetry(db.assoc, Upsert(Upsert(db.assoc, a, b, amount, now), b, a, amount, now), a, b);
    }
  }

  lemma {:induction false} StrengthenAllKeeps(db: Db, pairs: seq<(Id, Id)>, amount: real, now: int)
    requires amount >= 0.0 && AllEndpointsExist(db, pairs)
    ensures var after := db.(assoc := StrengthenAll(db.assoc, pairs, amount, now));
            && (SoundLinks(db) ==> SoundLinks(after))
            && (Symmetric(db.assoc) ==> Symmetric(after.assoc))
  {
    if pairs != [] {
      var last := pairs[|pairs| - 1];
      assert last in pairs;
      StrengthenAllKeeps(db, pairs[..|pairs| - 1], amount, now);
      var mid := StrengthenAll(db.assoc, pairs[..|pairs| - 1], amount, now);
      StrengthenOneKeeps(db.(assoc := mid), last.0, last.1, amount, now);
    }
  }

  lemma StrengthenPairsKeeps(db: Db, pairs: seq<(Id, Id)>, amount: real, now: int)
    requires amount >= 0.0
    ensures var after := StrengthenPairs(db, pairs, amount, now);
            && (SoundLinks(db) ==> SoundLinks(after))
            && (Symmetric(db.assoc) ==> Symmetric(after.assoc))
  {
    if AllEndpointsExist(db, pairs) {
      StrengthenAllKeeps(db, pairs, amount, now);
    }
  }
}
