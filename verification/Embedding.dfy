/** The cache-first embedding batch (core/embedding_service.py and
    core/embedding_cache.py). */
module Embedding {
  import opened Graph

  type Text(==, !new)

  type Vec = seq<real>

  /** Cache rows are keyed by model name and text; the text stands for its hash. */
  type Table = map<(string, Text), Vec>

  /** The configured model: what plain encoding gives, and its dimension.
      Blank texts are never encoded. */
  datatype Model = Model(name: string, encode: Text -> Vec, blank: Text -> bool, dim: nat)

  ghost predicate WellFormed(m: Model) {
    forall t :: |m.encode(t)| == m.dim
  }

  function Zeros(d: nat): (v: Vec)
    ensures |v| == d && forall i :: 0 <= i < d ==> v[i] == 0.0
  {
    seq(d, i => 0.0)
  }

  predicate AllZero(v: Vec) {
    forall i :: 0 <= i < |v| ==> v[i] == 0.0
  }

  /** The simple form: encode every text on its own. */
  function Plain(m: Model, texts: seq<Text>, d: nat): (r: seq<Vec>)
    ensures |r| == |texts|
    ensures forall i :: 0 <= i < |r| ==> r[i] == if m.blank(texts[i]) then Zeros(d) else m.encode(texts[i])
  {
    seq(|texts|, i requires 0 <= i < |texts| => if m.blank(texts[i]) then Zeros(d) else m.encode(texts[i]))
  }

  /** Entries of a dimension the service would accept are the model's own. */
  ghost predicate CacheCorrect(table: Table, m: Model, d: nat) {
    forall t :: (m.name, t) in table && (|table[(m.name, t)]| == d || |table[(m.name, t)]| == m.dim)
      ==> table[(m.name, t)] == m.encode(t)
  }

  /** A daemon whose answers of the expected dimension come from the configured model. */
  ghost predicate Honest(daemon: seq<Text> -> seq<Vec>, m: Model, d: nat) {
    forall texts :: Accepted(daemon(texts), texts, d) ==>
      forall i :: 0 <= i < |texts| ==> daemon(texts)[i] == m.encode(texts[i])
  }

  /** One row per text, and rows of the expected width. */
  predicate Accepted(rows: seq<Vec>, texts: seq<Text>, d: nat) {
    |rows| == |texts| && forall i :: 0 <= i < |rows| ==> |rows[i]| == d
  }

  function Lookup(table: Table, name: string, t: Text): (r: Option<Vec>) {
    if (name, t) in table then Some(table[(name, t)]) else None
  }

  function PutAll(table: Table, name: string, pairs: seq<(Text, Vec)>): (r: Table) {
    if pairs == [] then table
    else PutAll(table, name, pairs[..|pairs| - 1])[(name, pairs[|pairs| - 1].0) := pairs[|pairs| - 1].1]
  }

  predicate Mentions(pairs: seq<(Text, Vec)>, t: Text) {
    exists i :: 0 <= i < |pairs| && pairs[i].0 == t
  }

  /** Nothing but the mentioned texts changes, and those get a stored value of theirs. */
  lemma {:induction false} PutAllIs(table: Table, name: string, pairs: seq<(Text, Vec)>)
    ensures forall n, t :: (n, t) in PutAll(table, name, pairs) <==>
              (n, t) in table || (n == name && Mentions(pairs, t))
    ensures forall n, t :: (n, t) in table && (n != name || !Mentions(pairs, t))
              ==> PutAll(table, name, pairs)[(n, t)] == table[(n, t)]
    ensures forall t :: Mentions(pairs, t) ==>
              exists i :: 0 <= i < |pairs| && pairs[i].0 == t && PutAll(table, name, pairs)[(name, t)] == pairs[i].1
  {
    if pairs != [] {
      var less, last := pairs[..|pairs| - 1], pairs[|pairs| - 1];
      PutAllIs(table, name, less);
      forall t ensures Mentions(pairs, t) <==> t == last.0 || Mentions(less, t) {
        if Mentions(less, t) {
          var i :| 0 <= i < |less| && less[i].0 == t;
          assert pairs[i].0 == t;
        }
        if t == last.0 {
          assert pairs[|pairs| - 1].0 == t;
        }
      }
    }
  }

  class EmbeddingCache {
    var table: Table

    constructor ()
      ensures table == map[]
    {
      table := map[];
    }

    method GetMany(name: string, texts: seq<Text>) returns (r: seq<Option<Vec>>)
      ensures |r| == |texts| && forall i :: 0 <= i < |r| ==> r[i] == Lookup(table, name, texts[i])
    {
      r := [];
      for i := 0 to |texts|
        invariant |r| == i && forall k :: 0 <= k < i ==> r[k] == Lookup(table, name, texts[k])
      {
        r := r + [Lookup(table, name, texts[i])];
      }
    }

    method PutMany(name: string, pairs: seq<(Text, Vec)>)
      modifies this
      ensures table == PutAll(old(table), name, pairs)
    {
      for i := 0 to |pairs|
        invariant table == PutAll(old(table), name, pairs[..i])
      {
        assert pairs[..i + 1][..i] == pairs[..i];
        table := table[(name, pairs[i].0) := pairs[i].1];
      }
      assert pairs[..|pairs|] == pairs;
    }
  }

  type Slots = seq<Option<Vec>>

  /** A result slot is right for its text. */
  ghost predicate Right(m: Model, t: Text, v: Vec, d: nat, trust: bool) {
    if m.blank(t) then v == Zeros(d) else trust ==> v == m.encode(t)
  }

  /** Every filled slot is right, and every blank text's slot is filled. */
  ghost predicate Filling(m: Model, texts: seq<Text>, slots: Slots, d: nat, trust: bool) {
    && |slots| == |texts|
    && (forall i :: 0 <= i < |texts| && slots[i].Some? ==> Right(m, texts[i], slots[i].value, d, trust))
  }

  /** `idx` lists where the texts of `picked` sit in `texts`. */
  ghost predicate Positions(texts: seq<Text>, idx: seq<nat>, picked: seq<Text>) {
    |idx| == |picked| && forall p :: 0 <= p < |idx| ==> idx[p] < |texts| && picked[p] == texts[idx[p]]
  }

  /** Every unfilled slot is still on the list. */
  ghost predicate Listed(slots: Slots, idx: seq<nat>) {
    forall i :: 0 <= i < |slots| && slots[i].None? ==> i in idx
  }

  method SplitBlanks(m: Model, texts: seq<Text>, d: nat, ghost trust: bool)
    returns (slots: Slots, idx: seq<nat>, nonempty: seq<Text>)
    ensures Filling(m, texts, slots, d, trust) && Listed(slots, idx) && Positions(texts, idx, nonempty)
    ensures forall p :: 0 <= p < |nonempty| ==> !m.blank(nonempty[p])
    ensures forall t :: t in texts && !m.blank(t) ==> t in nonempty
  {
    slots, idx, nonempty := seq(|texts|, _ => None), [], [];
    for i := 0 to |texts|
      invariant Filling(m, texts, slots, d, trust) && Positions(texts, idx, nonempty)
      invariant forall k :: 0 <= k < i && slots[k].None? ==> k in idx
      invariant forall p :: 0 <= p < |nonempty| ==> !m.blank(nonempty[p])
      invariant forall k :: 0 <= k < i && !m.blank(texts[k]) ==> texts[k] in nonempty
    {
      if m.blank(texts[i]) {
        slots := slots[i := Some(Zeros(d))];
      } else {
        idx, nonempty := idx + [i], nonempty + [texts[i]];
      }
    }
  }

  /** Cache hits of the expected dimension fill their slots; all others are misses. */
  method TakeHits(m: Model, texts: seq<Text>, slots0: Slots, idx: seq<nat>, nonempty: seq<Text>,
                  cached: seq<Option<Vec>>, expected: nat, ghost trust: bool)
    returns (slots: Slots, missIdx: seq<nat>, missTexts: seq<Text>)
    requires Filling(m, texts, slots0, expected, trust) && Listed(slots0, idx) && Positions(texts, idx, nonempty)
    requires |cached| == |nonempty|
    requires forall p :: 0 <= p < |nonempty| ==> !m.blank(nonempty[p])
    requires trust ==> forall p :: 0 <= p < |cached| && Hit(cached[p], expected) ==>
      cached[p].value == m.encode(nonempty[p])
    ensures Filling(m, texts, slots, expected, trust) && Listed(slots, missIdx) && Positions(texts, missIdx, missTexts)
    ensures forall p :: 0 <= p < |missTexts| ==> !m.blank(missTexts[p])
    ensures forall t :: t in missTexts <==>
      exists p :: 0 <= p < |nonempty| && nonempty[p] == t && (cached[p].None? || |cached[p].value| != expected)
  {
    slots, missIdx, missTexts := slots0, [], [];
    for p := 0 to |cached|
      invariant Filling(m, texts, slots, expected, trust) && Positions(texts, missIdx, missTexts)
      invariant forall i :: 0 <= i < |slots| && slots[i].None? ==> i in missIdx || i in idx[p..]
      invariant forall k :: 0 <= k < |missTexts| ==> !m.blank(missTexts[k])
      invariant forall t :: t in missTexts <==> exists k :: 0 <= k < p && nonempty[k] == t && !Hit(cached[k], expected)
    {
      assert idx[p..] == [idx[p]] + idx[p + 1..];
      if Hit(cached[p], expected) {
        slots := slots[idx[p] := cached[p]];
      } else {
        missIdx, missTexts := missIdx + [idx[p]], missTexts + [nonempty[p]];
      }
    }
  }

  predicate Hit(entry: Option<Vec>, expected: nat) {
    entry.Some? && |entry.value| == expected
  }

  /** Computed vectors fill the missing slots and are paired up for the cache. */
  method TakeComputed(m: Model, texts: seq<Text>, slots0: Slots, missIdx: seq<nat>, missTexts: seq<Text>,
                      computed: seq<Vec>, d: nat, ghost trust: bool)
    returns (slots: Slots, toStore: seq<(Text, Vec)>)
    requires Filling(m, texts, slots0, d, trust) && Listed(slots0, missIdx) && Positions(texts, missIdx, missTexts)
    requires |computed| == |missTexts|
    requires forall p :: 0 <= p < |missTexts| ==> !m.blank(missTexts[p])
    requires trust ==> forall p :: 0 <= p < |computed| ==> computed[p] == m.encode(missTexts[p])
    ensures Filling(m, texts, slots, d, trust) && forall i :: 0 <= i < |slots| ==> slots[i].Some?
    ensures |toStore| == |missTexts| && forall p :: 0 <= p < |toStore| ==> toStore[p] == (missTexts[p], computed[p])
  {
    slots, toStore := slots0, [];
    for p := 0 to |computed|
      invariant Filling(m, texts, slots, d, trust)
      invariant forall i :: 0 <= i < |slots| && slots[i].None? ==> i in missIdx[p..]
      invariant |toStore| == p && forall k :: 0 <= k < p ==> toStore[k] == (missTexts[k], computed[k])
    {
      assert missIdx[p..] == [missIdx[p]] + missIdx[p + 1..];
      slots := slots[missIdx[p] := Some(computed[p])];
      toStore := toStore + [(missTexts[p], computed[p])];
    }
  }

  /** Storing the computed misses: only they change, and each gets a computed vector of its own text. */
  lemma StoredPairs(table: Table, m: Model, missTexts: seq<Text>, computed: seq<Vec>, toStore: seq<(Text, Vec)>, d: nat)
    requires |toStore| == |missTexts| == |computed|
    requires forall p :: 0 <= p < |toStore| ==> toStore[p] == (missTexts[p], computed[p])
    ensures var after := PutAll(table, m.name, toStore);
            && (forall n, t :: n != m.name || t !in missTexts ==> Lookup(after, n, t) == Lookup(table, n, t))
            && ((forall p :: 0 <= p < |computed| ==> computed[p] == m.encode(missTexts[p])) ==>
                  forall t :: t in missTexts ==> Lookup(after, m.name, t) == Some(m.encode(t)))
  {
    PutAllIs(table, m.name, toStore);
    forall t ensures Mentions(toStore, t) <==> t in missTexts {
      if t in missTexts {
        var p :| 0 <= p < |missTexts| && missTexts[p] == t;
        assert toStore[p].0 == t;
      }
    }
  }

  lemma NothingListed(m: Model, texts: seq<Text>, slots: Slots, d: nat, trust: bool, idx: seq<nat>, picked: seq<Text>)
    requires Filling(m, texts, slots, d, trust) && Listed(slots, idx) && Positions(texts, idx, picked) && picked == []
    ensures forall i :: 0 <= i < |slots| ==> slots[i].Some?
  {
  }

  lemma PickedAreTexts(texts: seq<Text>, idx: seq<nat>, picked: seq<Text>)
    requires Positions(texts, idx, picked)
    ensures forall t :: t in picked ==> t in texts
  {
  }

  lemma StaysCorrect(before: Table, after: Table, m: Model, d: nat, d': nat, changed: seq<Text>)
    requires WellFormed(m) && CacheCorrect(before, m, d) && (d' == d || d' == m.dim)
    requires forall n, t :: n != m.name || t !in changed ==> Lookup(after, n, t) == Lookup(before, n, t)
    requires forall t :: t in changed ==> Lookup(after, m.name, t) == Some(m.encode(t))
    ensures CacheCorrect(after, m, d')
  {
    forall t | (m.name, t) in after && (|after[(m.name, t)]| == d' || |after[(m.name, t)]| == m.dim)
      ensures after[(m.name, t)] == m.encode(t)
    {
      if t in changed {
        assert Lookup(after, m.name, t) == Some(m.encode(t));
      } else {
        assert Lookup(after, m.name, t) == Lookup(before, m.name, t);
      }
    }
  }

  ghost predicate ZeroOfOtherWidth(v: Vec, actual: nat) {
    |v| != actual && forall k :: 0 <= k < |v| ==> v[k] == 0.0
  }

  /** Zero vectors placed before the dimension was known are resized, and the slots unwrapped. */
  method Settle(m: Model, texts: seq<Text>, slots: Slots, d: nat, actual: nat, ghost trust: bool) returns (r: seq<Vec>)
    requires Filling(m, texts, slots, d, trust) && forall i :: 0 <= i < |slots| ==> slots[i].Some?
    ensures |r| == |texts| == |slots|
    ensures forall i :: 0 <= i < |texts| && ZeroOfOtherWidth(slots[i].value, actual) ==> r[i] == Zeros(actual)
    ensures forall i :: 0 <= i < |texts| && !ZeroOfOtherWidth(slots[i].value, actual) ==> r[i] == slots[i].value
    ensures forall i :: 0 <= i < |texts| && m.blank(texts[i]) ==> r[i] == Zeros(actual)
    ensures trust ==> forall i :: 0 <= i < |texts| && !m.blank(texts[i]) && |m.encode(texts[i])| == actual ==>
      r[i] == m.encode(texts[i])
  {
    r := [];
    for i := 0 to |slots|
      invariant |r| == i
      invariant forall k :: 0 <= k < i && ZeroOfOtherWidth(slots[k].value, actual) ==> r[k] == Zeros(actual)
      invariant forall k :: 0 <= k < i && !ZeroOfOtherWidth(slots[k].value, actual) ==> r[k] == slots[k].value
      invariant forall k :: 0 <= k < i && m.blank(texts[k]) ==> r[k] == Zeros(actual)
      invariant trust ==> forall k :: 0 <= k < i && !m.blank(texts[k]) && |m.encode(texts[k])| == actual ==>
        r[k] == m.encode(texts[k])
    {
      var v := slots[i].value;
      assert Right(m, texts[i], v, d, trust);
      r := r + [if |v| != actual && AllZero(v) then Zeros(actual) else v];
    }
  }

  class EmbeddingService {
    const m: Model
    const cache: EmbeddingCache
    var localDim: nat  // the local backend's dimension: known up front, or learnt from the loaded model

    constructor (m: Model, cache: EmbeddingCache, localDim: nat)
      ensures this.m == m && this.cache == cache && this.localDim == localDim
    {
      this.m, this.cache, this.localDim := m, cache, localDim;
    }

    /** Daemon first; its answer counts only with the right number and width. */
    method Compute(daemon: seq<Text> -> seq<Vec>, texts: seq<Text>, expected: nat) returns (r: seq<Vec>)
      modifies `localDim
      ensures |r| == |texts|
      ensures var rows := daemon(texts);
        if |rows| == |texts| && forall i :: 0 <= i < |rows| ==> |rows[i]| == expected
        then r == rows && localDim == old(localDim)
        else localDim == m.dim && forall i :: 0 <= i < |r| ==> r[i] == m.encode(texts[i])
    {
      var rows := daemon(texts);
      if Accepted(rows, texts, expected) {
        return rows;
      }
      r := seq(|texts|, i requires 0 <= i < |texts| => m.encode(texts[i]));
      localDim := m.dim;
    }

    ghost predicate Trusted(daemon: seq<Text> -> seq<Vec>)
      reads this, cache
    {
      WellFormed(m) && CacheCorrect(cache.table, m, localDim) && Honest(daemon, m, localDim)
    }

    /** Looks the non-blank texts up, computes the misses and stores them. */
    method FillNonEmpty(daemon: seq<Text> -> seq<Vec>, texts: seq<Text>, slots0: Slots, idx: seq<nat>,
                        nonempty: seq<Text>, ghost trust: bool)
      returns (slots: Slots)
      requires trust ==> Trusted(daemon)
      requires Filling(m, texts, slots0, localDim, trust) && Listed(slots0, idx) && Positions(texts, idx, nonempty)
      requires forall p :: 0 <= p < |nonempty| ==> !m.blank(nonempty[p])
      modifies `localDim, cache
      ensures Filling(m, texts, slots, old(localDim), trust) && forall i :: 0 <= i < |slots| ==> slots[i].Some?
      ensures localDim == old(localDim) || localDim == m.dim
      ensures trust && nonempty != [] ==> localDim == m.dim
      ensures forall n, t :: n != m.name || t !in nonempty ==>
        Lookup(cache.table, n, t) == old(Lookup(cache.table, n, t))
      ensures trust ==> forall t :: t in nonempty ==> Lookup(cache.table, m.name, t) == Some(m.encode(t))
    {
      hide Filling, Listed, Positions;
      ghost var table0 := cache.table;
      var expected := localDim;
      var cached := cache.GetMany(m.name, nonempty);
      var missIdx, missTexts;
      slots, missIdx, missTexts := TakeHits(m, texts, slots0, idx, nonempty, cached, expected, trust);
      if missTexts == [] {
        NothingListed(m, texts, slots, expected, trust, missIdx, missTexts);
        forall t | trust && t in nonempty ensures Lookup(cache.table, m.name, t) == Some(m.encode(t)) {
          var p :| 0 <= p < |nonempty| && nonempty[p] == t;
          assert t !in missTexts;
        }
        if trust && nonempty != [] {
          assert Lookup(cache.table, m.name, nonempty[0]) == Some(m.encode(nonempty[0]));
          assert nonempty[0] !in missTexts && Hit(cached[0], expected);
        }
        return;
      }
      var computed := Compute(daemon, missTexts, expected);
      if trust && Accepted(daemon(missTexts), missTexts, expected) {
        assert computed[0] == m.encode(missTexts[0]);
      }
      var toStore;
      slots, toStore := TakeComputed(m, texts, slots, missIdx, missTexts, computed, expected, trust);
      cache.PutMany(m.name, toStore);
      StoredPairs(table0, m, missTexts, computed, toStore, expected);
    }

    /** One vector per text, in order. */
    method EmbedBatch(daemon: seq<Text> -> seq<Vec>, texts: seq<Text>) returns (r: seq<Vec>)
      modifies `localDim, cache
      ensures |r| == |texts|
      ensures old(Trusted(daemon)) ==> r == Plain(m, texts, localDim)
      ensures old(Trusted(daemon)) ==> CacheCorrect(cache.table, m, localDim)
      ensures old(Trusted(daemon)) ==> forall t :: t in texts && !m.blank(t) ==>
        Lookup(cache.table, m.name, t) == Some(m.encode(t))
      ensures forall n, t :: n != m.name || t !in texts || m.blank(t) ==>
        Lookup(cache.table, n, t) == old(Lookup(cache.table, n, t))
    {
      hide Filling, Listed, Positions;
      ghost var trust, table0 := Trusted(daemon), cache.table;
      var expected := localDim;
      var slots, idx, nonempty := SplitBlanks(m, texts, expected, trust);
      PickedAreTexts(texts, idx, nonempty);
      slots := FillNonEmpty(daemon, texts, slots, idx, nonempty, trust);
      if trust {
        StaysCorrect(table0, cache.table, m, expected, localDim, nonempty);
      }
      r := Settle(m, texts, slots, expected, localDim, trust);
      if trust {
        forall i | 0 <= i < |texts| && !m.blank(texts[i]) ensures r[i] == m.encode(texts[i]) {
          assert texts[i] in nonempty;
        }
        assert r == Plain(m, texts, localDim);
      }
    }
  }
}
