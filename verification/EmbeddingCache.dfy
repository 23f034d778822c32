/** The embedding cache (`CachedEmbeddings`, `EmbeddingCacheRepo`). */
module EmbeddingCache {
  import opened Collections
  import opened Canonical

  type Byte = x: nat | x < 256

  // The bit pattern of a 32-bit float.
  type Word = x: nat | x < 0x1_0000_0000

  function ToLittleEndian(w: Word): seq<Byte> {
    [w % 256, w / 256 % 256, w / 65536 % 256, w / 16777216 % 256]
  }

  function FromLittleEndian(b: seq<Byte>): Word
    requires |b| == 4
  {
    b[0] as int + 256 * (b[1] as int) + 65536 * (b[2] as int) + 16777216 * (b[3] as int)
  }

  function Encode(v: seq<Word>): seq<Byte> {
    if v == [] then [] else ToLittleEndian(v[0]) + Encode(v[1..])
  }

  // `chunks_exact(4)`: a short rest is dropped.
  function Decode(bytes: seq<Byte>): seq<Word> {
    if |bytes| < 4 then [] else [FromLittleEndian(bytes[..4])] + Decode(bytes[4..])
  }

  lemma WordRoundTrip(w: Word)
    ensures FromLittleEndian(ToLittleEndian(w)) == w
  {
    assert w / 65536 == w / 256 / 256 && w / 16777216 == w / 256 / 256 / 256;
  }

  /** The stored bytes decode to the vector they were made from. */
  lemma {:induction false} DecodeInvertsEncode(v: seq<Word>)
    ensures Decode(Encode(v)) == v
  {
    if v != [] {
      WordRoundTrip(v[0]);
      DecodeInvertsEncode(v[1..]);
      assert Encode(v)[..4] == ToLittleEndian(v[0]) && Encode(v)[4..] == Encode(v[1..]);
    }
  }

  // The number that four bytes spell, least significant first.
  function Spelled(b0: Byte, b1: Byte, b2: Byte, b3: Byte): int {
    b0 + 0x100 * b1 + 0x1_0000 * b2 + 0x100_0000 * b3
  }

  /** Four bytes a float, in order, which spell its bit pattern from the least significant byte up. */
  lemma {:induction false} BytesAreLittleEndian(v: seq<Word>, i: nat)
    requires i < |v|
    ensures |Encode(v)| == 4 * |v|
    ensures var b := Encode(v); Spelled(b[4 * i], b[4 * i + 1], b[4 * i + 2], b[4 * i + 3]) == v[i]
  {
    WordRoundTrip(v[0]);
    if i > 0 {
      BytesAreLittleEndian(v[1..], i - 1);
    } else if |v| > 1 {
      BytesAreLittleEndian(v[1..], 0);
    }
  }

  datatype Key<H> = Key(provider: string, model: string, hash: H)

  // What a model of a provider answers to a text; None is a provider error.
  type Models = (string, string) -> (string -> Option<seq<Word>>)

  datatype Provider = Provider(name: string, model: string, embed: string -> Option<seq<Word>>)

  ghost predicate CollisionFree<H>(hash: string -> H) {
    forall s: string, t: string :: hash(s) == hash(t) ==> s == t
  }

  // The table may hold entries of any provider and model, each the answer of that model to some text.
  ghost predicate SoundTable<H>(cache: map<Key<H>, seq<Byte>>, models: Models, hash: string -> H) {
    forall name: string, model: string, t: string :: Key(name, model, hash(t)) in cache ==>
      models(name, model)(t).Some? && Decode(cache[Key(name, model, hash(t))]) == models(name, model)(t).value
  }

  class CachedEmbeddings<H(==)> {
    ghost const models: Models
    const provider: Provider
    const hash: string -> H
    const ws: Whitespace
    var cache: map<Key<H>, seq<Byte>>
    // The texts for which the provider was called and answered.
    ghost var calls: seq<string>

    function KeyFor(canonical: string): Key<H> {
      Key(provider.name, provider.model, hash(canonical))
    }

    // Whatever is cached is sound for its own provider and model, and every answered call is cached.
    ghost predicate Valid()
      reads this
    {
      && ws(' ') && provider.embed == models(provider.name, provider.model)
      && SoundTable(cache, models, hash)
      && NoDup(calls)
      && (forall i :: 0 <= i < |calls| ==> KeyFor(calls[i]) in cache)
    }

    // Opens a table that other providers and models may have filled.
    constructor (provider: Provider, hash: string -> H, ws: Whitespace, table: map<Key<H>, seq<Byte>>, ghost models: Models)
      requires ws(' ') && provider.embed == models(provider.name, provider.model) && SoundTable(table, models, hash)
      ensures Valid() && this.provider == provider && this.hash == hash && this.ws == ws && this.models == models
      ensures cache == table && calls == []
    {
      this.provider, this.hash, this.ws, this.models := provider, hash, ws, models;
      cache, calls := table, [];
    }

    /** The provider's answer on the canonical text, asked for only when the key is not cached. */
    method Embed(text: string) returns (r: Option<seq<Word>>)
      requires Valid() && CollisionFree(hash)
      modifies this
      ensures Valid()
      ensures r == provider.embed(Canon(text, ws))
      ensures calls == if KeyFor(Canon(text, ws)) in old(cache) || r.None? then old(calls) else old(calls) + [Canon(text, ws)]
      ensures r.Some? ==> KeyFor(Canon(text, ws)) in cache
      ensures forall k :: k in old(cache) ==> k in cache && cache[k] == old(cache)[k]
    {
      var canonical := Canonicalise(text, ws);
      var key := KeyFor(canonical);
      if key in cache {
        return Some(Decode(cache[key]));
      }
      var vector := provider.embed(canonical);
      if vector.None? {
        return None;
      }
      assert forall i :: 0 <= i < |calls| ==> calls[i] != canonical;
      cache := cache[key := Encode(vector.value)];
      DecodeInvertsEncode(vector.value);
      calls := calls + [canonical];
      return vector;
    }

    lemma CallsHaveTheirKeys()
      requires NoDup(calls) && CollisionFree(hash)
      ensures forall i, j :: 0 <= i < j < |calls| ==> KeyFor(calls[i]) != KeyFor(calls[j])
    {
    }

    /** Over any sequence of requests the provider answers at most once per key. */
    method EmbedAll(texts: seq<string>) returns (rs: seq<Option<seq<Word>>>)
      requires Valid() && CollisionFree(hash)
      modifies this
      ensures Valid() && NoDup(calls)
      ensures |rs| == |texts| && forall i :: 0 <= i < |texts| ==> rs[i] == provider.embed(Canon(texts[i], ws))
      ensures forall i, j :: 0 <= i < j < |calls| ==> KeyFor(calls[i]) != KeyFor(calls[j])
    {
      rs := [];
      for k := 0 to |texts|
        invariant Valid()
        invariant |rs| == k && forall i :: 0 <= i < k ==> rs[i] == provider.embed(Canon(texts[i], ws))
      {
        var r := Embed(texts[k]);
        rs := rs + [r];
      }
      CallsHaveTheirKeys();
    }
  }
}
