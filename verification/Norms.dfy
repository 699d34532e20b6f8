/** The norms of text types, their cache, and how a worker puts norms and counts together
    (worker/normscache.go, worker/actions.go). */
module Norms {
  import opened FreqRows
  import opened Text
  import Compile
  import opened Wrappers

  datatype Failure = InvalidAttribute | InvalidMaxItems | Engine(code: int)

  /** `GetTextTypesNorms`: a failure comes with an empty map. */
  datatype Computed = Sizes(norms: map<Word, int>) | Failed(error: Failure)

  /** The sizes of the values of a structural attribute: corpus, structure, attribute. */
  type Sizer = (string, string, string) -> Computed

  function Direct(sizer: Sizer, corp: string, attr: string): Computed {
    var parts := Split(attr, '.');
    if |parts| != 2 then Failed(InvalidAttribute) else sizer(corp, parts[0], parts[1])
  }

  // ----- the cache -----

  datatype Key = Key(text: string)

  function MkKey(corp: string, attr: string): Key {
    Key(corp + "#" + attr)
  }

  /** A nil map and an empty one are the same value here. */
  type Data = map<Key, map<Word, int>>

  class NormsCache {
    var data: Data

    constructor ()
      ensures data == map[]
    {
      data := map[];
    }

    method Get(corp: string, attr: string) returns (norms: map<Word, int>, ok: bool)
      ensures ok <==> MkKey(corp, attr) in data
      ensures norms == if ok then data[MkKey(corp, attr)] else map[]
    {
      var key := MkKey(corp, attr);
      if key !in data {
        return map[], false;
      }
      return data[key], true;
    }

    method Set(corp: string, attr: string, values: map<Word, int>)
      modifies this
      ensures data == old(data)[MkKey(corp, attr) := values]
    {
      data := data[MkKey(corp, attr) := values];
    }
  }

  // ----- one call -----

  /** What touches the cache: `textTypeNorms` and the text-type branch of `freqDistrib`. */
  datatype Call = TextTypeNorms(corp: string, attr: string) | TextTypeFreqs(corp: string, attr: string)

  function KeyOf(call: Call): Key {
    MkKey(call.corp, call.attr)
  }

  function DirectOf(sizer: Sizer, call: Call): Computed {
    Direct(sizer, call.corp, call.attr)
  }

  /** The norms that a call works with. */
  function Used(sizer: Sizer, data: Data, call: Call): Computed {
    if KeyOf(call) in data then Sizes(data[KeyOf(call)]) else DirectOf(sizer, call)
  }

  /** A call whose computation is worth storing. */
  predicate Stores(sizer: Sizer, call: Call) {
    call.TextTypeNorms? && DirectOf(sizer, call).Sizes?
  }

  function NextData(sizer: Sizer, data: Data, call: Call): Data {
    if KeyOf(call) !in data && Stores(sizer, call) then data[KeyOf(call) := DirectOf(sizer, call).norms]
    else data
  }

  // ----- the worker's functions -----

  /** What the engine answers to a frequency query. */
  datatype Counts =
    | Counts(words: seq<Word>, freqs: seq<int>, concSize: int, corpusSize: int, subcSize: int)
    | CountsFailed(code: int)

  datatype Distribution = Distribution(
    freqs: seq<Row>, concSize: int, corpusSize: int, fcrit: string, error: Option<Failure>)

  /** `extractAttrFromTTCrit` */
  function AttrOf(crit: string): string {
    Split(crit, ' ')[0]
  }

  function CallOf(corp: string, crit: string): Call {
    TextTypeFreqs(corp, AttrOf(crit))
  }

  /** The norms `freqDistrib` compiles its rows with, and the failure it reports beside them. */
  function NormsFor(sizer: Sizer, data: Data, corp: string, crit: string, isTextTypes: bool)
    : (map<Word, int>, Option<Failure>)
  {
    if !isTextTypes then (map[], None)
    else
      match Used(sizer, data, CallOf(corp, crit))
      case Sizes(norms) => (norms, None)
      case Failed(error) => (map[], Some(error))
  }

  ghost predicate CompiledOrStopped(counts: Counts, maxItems: nat, norms: map<Word, int>, rows: seq<Row>)
    requires counts.Counts?
  {
    || Compile.Compiled(counts.words, counts.freqs, counts.subcSize, maxItems, norms, rows)
    || exists i: nat :: Compile.StoppedAt(counts.words, counts.freqs, i, counts.subcSize, norms, rows)
  }

  class Worker {
    const sizer: Sizer
    const normsCache: NormsCache

    constructor (sizer: Sizer)
      ensures this.sizer == sizer && fresh(normsCache) && normsCache.data == map[]
    {
      this.sizer := sizer;
      normsCache := new NormsCache();
    }

    method TextTypeNorms(corp: string, attr: string) returns (ans: Computed)
      modifies normsCache
      ensures ans == Used(sizer, old(normsCache.data), Call.TextTypeNorms(corp, attr))
      ensures normsCache.data == NextData(sizer, old(normsCache.data), Call.TextTypeNorms(corp, attr))
    {
      var norms, ok := normsCache.Get(corp, attr);
      if !ok {
        var computed := Direct(sizer, corp, attr);
        if computed.Failed? {
          return computed;
        }
        norms := computed.norms;
        normsCache.Set(corp, attr, norms);
      }
      return Sizes(norms);
    }

    /** `counts` is the engine's answer to the query. A missing norm goes unreported: the rows up to it
        are the answer. */
    method FreqDistrib(
      corp: string, crit: string, isTextTypes: bool, maxItems: int, counts: Counts)
      returns (ans: Distribution)
      requires counts.Counts? ==> |counts.words| == |counts.freqs|
      ensures maxItems <= 0 ==> ans.freqs == [] && ans.error == Some(InvalidMaxItems)
      ensures maxItems > 0 && counts.CountsFailed? ==> ans.freqs == [] && ans.error == Some(Engine(counts.code))
      ensures maxItems > 0 && counts.Counts? ==>
                var (norms, error) := NormsFor(sizer, normsCache.data, corp, crit, isTextTypes);
                && CompiledOrStopped(counts, maxItems, norms, ans.freqs)
                && ans.concSize == counts.concSize && ans.corpusSize == counts.corpusSize
                && ans.fcrit == crit && ans.error == error
      ensures maxItems > 0 && counts.Counts? && !isTextTypes ==>
                && Compile.Compiled(counts.words, counts.freqs, counts.subcSize, maxItems, map[], ans.freqs)
                && ans.error == None
    {
      ans := Distribution([], 0, 0, "", None);
      if maxItems <= 0 {
        return ans.(error := Some(InvalidMaxItems));
      }
      if counts.CountsFailed? {
        return ans.(error := Some(Engine(counts.code)));
      }
      var norms: map<Word, int> := map[];
      if isTextTypes {
        var ok;
        norms, ok := normsCache.Get(corp, AttrOf(crit));
        if !ok {
          var computed := Direct(sizer, corp, AttrOf(crit));
          match computed {
            case Sizes(sizes) => norms := sizes;
            case Failed(error) => norms, ans := map[], ans.(error := Some(error));
          }
        }
      }
      var merged, missing :=
        Compile.CompileFreqResult(counts.words, counts.freqs, counts.subcSize, maxItems, norms);
      ans := ans.(freqs := merged, concSize := counts.concSize, corpusSize := counts.corpusSize, fcrit := crit);
    }
  }

  // ----- the key -----

  lemma {:induction false} LastHash(a: string, b: string, c: string, d: string)
    requires a + "#" + b == c + "#" + d && |a| <= |c|
    ensures a == c || (|a| < |c| && c == a + "#" + c[|a| + 1..] && b == c[|a| + 1..] + "#" + d)
  {
    var whole := a + "#" + b;
    assert whole[..|a|] == a && whole[|a|] == '#' && whole[|a| + 1..] == b;
    assert whole[..|c|] == c && whole[|c|] == '#' && whole[|c| + 1..] == d;
    if |a| < |c| {
      var m := whole[|a| + 1..|c|];
      assert c == a + "#" + m && c[|a| + 1..] == m;
      assert b == m + "#" + d;
    }
  }

  /** The second pair is the first one with the separator at a later `#`. */
  predicate Shifted(corp1: string, attr1: string, corp2: string, attr2: string) {
    && |corp1| < |corp2| && corp2 == corp1 + "#" + corp2[|corp1| + 1..]
    && attr1 == corp2[|corp1| + 1..] + "#" + attr2
  }

  /** Two requests share a key exactly when they are the same request or one's attribute holds a `#`
      behind which the other one's begins. */
  lemma KeysCollide(corp1: string, attr1: string, corp2: string, attr2: string)
    ensures MkKey(corp1, attr1) == MkKey(corp2, attr2) <==>
            || (corp1 == corp2 && attr1 == attr2)
            || Shifted(corp1, attr1, corp2, attr2)
            || Shifted(corp2, attr2, corp1, attr1)
  {
    if MkKey(corp1, attr1) == MkKey(corp2, attr2) {
      if |corp1| <= |corp2| {
        LastHash(corp1, attr1, corp2, attr2);
      } else {
        LastHash(corp2, attr2, corp1, attr1);
      }
      if corp1 == corp2 {
        var whole := corp1 + "#" + attr1;
        assert attr1 == whole[|corp1| + 1..] == attr2;
      }
    } else {
      if Shifted(corp1, attr1, corp2, attr2) {
        SameText(corp1, corp2[|corp1| + 1..], attr2);
      }
      if Shifted(corp2, attr2, corp1, attr1) {
        SameText(corp2, corp1[|corp2| + 1..], attr1);
      }
    }
  }

  lemma SameText(corp: string, m: string, attr: string)
    ensures MkKey(corp, m + "#" + attr) == MkKey(corp + "#" + m, attr)
  {
    assert corp + "#" + (m + "#" + attr) == corp + "#" + m + "#" + attr;
  }

  // ----- runs of calls -----

  /** The cache of a worker that started with an empty one and has served the given calls. */
  function DataAfter(sizer: Sizer, calls: seq<Call>): Data {
    if calls == [] then map[]
    else NextData(sizer, DataAfter(sizer, calls[..|calls| - 1]), calls[|calls| - 1])
  }

  /** The norms that call `j` of the run works with. */
  function UsedBy(sizer: Sizer, calls: seq<Call>, j: nat): Computed
    requires j < |calls|
  {
    Used(sizer, DataAfter(sizer, calls[..j]), calls[j])
  }

  /** Every call works with the norms that a direct computation would give it. */
  ghost predicate Agrees(sizer: Sizer, calls: seq<Call>) {
    forall j | 0 <= j < |calls| :: UsedBy(sizer, calls, j) == DirectOf(sizer, calls[j])
  }

  /** Every successful computation of norms is right for all later calls under its key. */
  ghost predicate Compatible(sizer: Sizer, calls: seq<Call>) {
    forall i, j | 0 <= i < j < |calls| && Stores(sizer, calls[i]) && KeyOf(calls[i]) == KeyOf(calls[j]) ::
      DirectOf(sizer, calls[i]) == DirectOf(sizer, calls[j])
  }

  /** `k` holds what the successful computation of call `i` gave. */
  predicate FilledBy(sizer: Sizer, calls: seq<Call>, k: Key, norms: map<Word, int>, i: nat) {
    i < |calls| && Stores(sizer, calls[i]) && KeyOf(calls[i]) == k && DirectOf(sizer, calls[i]) == Sizes(norms)
  }

  lemma {:induction false} EntryIsComputed(sizer: Sizer, calls: seq<Call>, k: Key) returns (i: nat)
    requires k in DataAfter(sizer, calls)
    ensures FilledBy(sizer, calls, k, DataAfter(sizer, calls)[k], i)
  {
    var n := |calls| - 1;
    if k in DataAfter(sizer, calls[..n]) {
      i := EntryIsComputed(sizer, calls[..n], k);
    } else {
      i := n;
    }
  }

  lemma {:induction false} EntriesStay(sizer: Sizer, calls: seq<Call>, m: nat, k: Key)
    requires m <= |calls| && k in DataAfter(sizer, calls[..m])
    ensures k in DataAfter(sizer, calls) && DataAfter(sizer, calls)[k] == DataAfter(sizer, calls[..m])[k]
  {
    if m == |calls| {
      assert calls[..m] == calls;
    } else {
      var n := |calls| - 1;
      assert calls[..n][..m] == calls[..m];
      EntriesStay(sizer, calls[..n], m, k);
    }
  }

  lemma StoredIsHeld(sizer: Sizer, calls: seq<Call>, i: nat)
    requires i < |calls| && Stores(sizer, calls[i])
    ensures KeyOf(calls[i]) in DataAfter(sizer, calls)
  {
    var upTo := calls[..i + 1];
    assert upTo[..i] == calls[..i] && upTo[i] == calls[i];
    EntriesStay(sizer, calls, i + 1, KeyOf(calls[i]));
  }

  /** The cache holds exactly what was computed successfully for a request for norms. */
  lemma CacheHolds(sizer: Sizer, calls: seq<Call>, k: Key)
    ensures k in DataAfter(sizer, calls) <==>
            exists i :: 0 <= i < |calls| && Stores(sizer, calls[i]) && KeyOf(calls[i]) == k
  {
    if k in DataAfter(sizer, calls) {
      var i := EntryIsComputed(sizer, calls, k);
    }
    if i: nat :| i < |calls| && Stores(sizer, calls[i]) && KeyOf(calls[i]) == k {
      StoredIsHeld(sizer, calls, i);
    }
  }

  lemma CompatibleAgrees(sizer: Sizer, calls: seq<Call>, j: nat)
    requires Compatible(sizer, calls) && j < |calls|
    ensures UsedBy(sizer, calls, j) == DirectOf(sizer, calls[j])
  {
    if KeyOf(calls[j]) in DataAfter(sizer, calls[..j]) {
      var i := EntryIsComputed(sizer, calls[..j], KeyOf(calls[j]));
      assert calls[..j][i] == calls[i];
    }
  }

  lemma AgreesCompatible(sizer: Sizer, calls: seq<Call>, i: nat, j: nat)
    requires Agrees(sizer, calls) && i < j < |calls|
    requires Stores(sizer, calls[i]) && KeyOf(calls[i]) == KeyOf(calls[j])
    ensures DirectOf(sizer, calls[i]) == DirectOf(sizer, calls[j])
  {
    var k := KeyOf(calls[i]);
    assert UsedBy(sizer, calls, i) == DirectOf(sizer, calls[i]);
    assert UsedBy(sizer, calls, j) == DirectOf(sizer, calls[j]);
    var upTo := calls[..i + 1];
    assert upTo[..i] == calls[..i];
    assert k in DataAfter(sizer, upTo) && Sizes(DataAfter(sizer, upTo)[k]) == DirectOf(sizer, calls[i]);
    assert calls[..j][..i + 1] == upTo;
    EntriesStay(sizer, calls[..j], i + 1, k);
  }

  /** A run agrees with direct computation exactly when no successful computation is stored under a key
      that a later call needs for other norms. */
  lemma AgreementCondition(sizer: Sizer, calls: seq<Call>)
    ensures Agrees(sizer, calls) <==> Compatible(sizer, calls)
  {
    if Compatible(sizer, calls) {
      forall j | 0 <= j < |calls| ensures UsedBy(sizer, calls, j) == DirectOf(sizer, calls[j]) {
        CompatibleAgrees(sizer, calls, j);
      }
    }
    if Agrees(sizer, calls) {
      forall i, j | 0 <= i < j < |calls| && Stores(sizer, calls[i]) && KeyOf(calls[i]) == KeyOf(calls[j])
        ensures DirectOf(sizer, calls[i]) == DirectOf(sizer, calls[j])
      {
        AgreesCompatible(sizer, calls, i, j);
      }
    }
  }

  /** A computation whose result may be stored: the attribute has the form that the engine is asked for. */
  predicate MayStore(call: Call) {
    call.TextTypeNorms? && |Split(call.attr, '.')| == 2
  }

  /** No call that may store its norms shares its key with a later call for another corpus or attribute. */
  predicate KeysTellApart(calls: seq<Call>) {
    forall i, j | 0 <= i < j < |calls| && MayStore(calls[i]) && KeyOf(calls[i]) == KeyOf(calls[j]) ::
      calls[i].corp == calls[j].corp && calls[i].attr == calls[j].attr
  }

  /** An engine that knows the attribute of one call and no other. */
  function KnowsOnly(call: Call): Sizer
    requires MayStore(call)
  {
    var parts := Split(call.attr, '.');
    (corp, strct, attr) =>
      if corp == call.corp && strct == parts[0] && attr == parts[1] then Sizes(map[]) else Failed(InvalidAttribute)
  }

  lemma SamePieces(attr1: string, attr2: string)
    requires Split(attr1, '.') == Split(attr2, '.')
    ensures attr1 == attr2
  {
    JoinOfSplit(attr1, '.');
    JoinOfSplit(attr2, '.');
  }

  lemma KnowsNoOther(call: Call, other: Call)
    requires MayStore(call)
    ensures Stores(KnowsOnly(call), call)
    ensures DirectOf(KnowsOnly(call), other) == DirectOf(KnowsOnly(call), call) ==>
              other.corp == call.corp && other.attr == call.attr
  {
    if DirectOf(KnowsOnly(call), other).Sizes? {
      assert Split(other.attr, '.') == Split(call.attr, '.');
      SamePieces(call.attr, other.attr);
    }
  }

  lemma ApartAgrees(sizer: Sizer, calls: seq<Call>)
    requires KeysTellApart(calls)
    ensures Agrees(sizer, calls)
  {
    forall i, j | 0 <= i < j < |calls| && Stores(sizer, calls[i]) && KeyOf(calls[i]) == KeyOf(calls[j])
      ensures DirectOf(sizer, calls[i]) == DirectOf(sizer, calls[j])
    {
      assert MayStore(calls[i]);
    }
    AgreementCondition(sizer, calls);
  }

  lemma AgreesApart(calls: seq<Call>, i: nat, j: nat)
    requires i < j < |calls| && MayStore(calls[i]) && KeyOf(calls[i]) == KeyOf(calls[j])
    requires Agrees(KnowsOnly(calls[i]), calls)
    ensures calls[i].corp == calls[j].corp && calls[i].attr == calls[j].attr
  {
    KnowsNoOther(calls[i], calls[j]);
    AgreesCompatible(KnowsOnly(calls[i]), calls, i, j);
  }

  ghost predicate AlwaysAgrees(calls: seq<Call>) {
    forall sizer: Sizer :: Agrees(sizer, calls)
  }

  /** A run agrees with direct computation whatever the engine answers, exactly when its keys tell its
      requests apart: a condition on the requests alone. */
  lemma AlwaysAgreesCondition(calls: seq<Call>)
    ensures AlwaysAgrees(calls) <==> KeysTellApart(calls)
  {
    if KeysTellApart(calls) {
      forall sizer: Sizer ensures Agrees(sizer, calls) {
        ApartAgrees(sizer, calls);
      }
    }
    if AlwaysAgrees(calls) {
      forall i, j | 0 <= i < j < |calls| && MayStore(calls[i]) && KeyOf(calls[i]) == KeyOf(calls[j])
        ensures calls[i].corp == calls[j].corp && calls[i].attr == calls[j].attr
      {
        AgreesApart(calls, i, j);
      }
    }
  }

  /** With attributes free of `#` every run agrees with direct computation, whatever the corpora are
      called and whatever the engine answers. */
  lemma CacheAgrees(sizer: Sizer, calls: seq<Call>)
    requires forall i | 0 <= i < |calls| :: Free(calls[i].attr, '#')
    ensures Agrees(sizer, calls)
  {
    forall i, j | 0 <= i < j < |calls| && KeyOf(calls[i]) == KeyOf(calls[j])
      ensures calls[i].corp == calls[j].corp && calls[i].attr == calls[j].attr
    {
      var a, b := calls[i], calls[j];
      KeysCollide(a.corp, a.attr, b.corp, b.attr);
      ShiftedHasHash(a.corp, a.attr, b.corp, b.attr);
      ShiftedHasHash(b.corp, b.attr, a.corp, a.attr);
    }
    ApartAgrees(sizer, calls);
  }

  lemma ShiftedHasHash(corp1: string, attr1: string, corp2: string, attr2: string)
    ensures Shifted(corp1, attr1, corp2, attr2) ==> !Free(attr1, '#')
  {
    if Shifted(corp1, attr1, corp2, attr2) {
      assert attr1[|corp2| - |corp1| - 1] == '#';
    }
  }

  /** A `#` in an attribute breaks it: whenever two such requests have different sizes, the second one
      is answered with the norms of the first. */
  lemma HashBreaksAgreement(sizer: Sizer, corp: string, m: string, attr: string)
    requires Direct(sizer, corp, m + "#" + attr).Sizes?
    requires Direct(sizer, corp, m + "#" + attr) != Direct(sizer, corp + "#" + m, attr)
    ensures !Agrees(sizer, [TextTypeNorms(corp, m + "#" + attr), TextTypeNorms(corp + "#" + m, attr)])
  {
    var calls := [TextTypeNorms(corp, m + "#" + attr), TextTypeNorms(corp + "#" + m, attr)];
    SameText(corp, m, attr);
    assert Stores(sizer, calls[0]) && KeyOf(calls[0]) == KeyOf(calls[1]);
    AgreementCondition(sizer, calls);
  }

  /** In an agreeing run a text-type frequency list is compiled with the direct norms, and a failure to
      get them is reported beside a list based on the size of the subcorpus. */
  lemma NormsForAgree(sizer: Sizer, calls: seq<Call>, corp: string, crit: string)
    requires Agrees(sizer, calls + [CallOf(corp, crit)])
    ensures var (norms, error) := NormsFor(sizer, DataAfter(sizer, calls), corp, crit, true);
            match Direct(sizer, corp, AttrOf(crit))
            case Sizes(direct) => norms == direct && error == None
            case Failed(failure) => norms == map[] && error == Some(failure)
  {
    var all := calls + [CallOf(corp, crit)];
    assert all[..|calls|] == calls && all[|calls|] == CallOf(corp, crit);
    assert UsedBy(sizer, all, |calls|) == DirectOf(sizer, all[|calls|]);
  }

  /** The handlers append ` 0` to the attribute: the worker finds the attribute again. */
  lemma AttrOfCrit(attr: string)
    requires Free(attr, ' ')
    ensures AttrOf(attr + " 0") == attr
  {
    assert attr + " 0" == attr + [' '] + "0";
    SplitFirst(attr, ' ', "0");
  }
}
