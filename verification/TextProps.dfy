/** `ApplyTextPropertiesMapping` (corpus/concordance.go) deletes and inserts keys of a map while it
    ranges over that map. Go promises little about such a loop: the order is arbitrary, an entry that
    is created on the way may be visited or not. A run is any sequence of visits that this allows. */
module TextProps {
  import opened Text
  import opened Wrappers

  /** From an attribute to its text property. */
  type Mapping = Str -> Option<Str>

  /** `must`: original entries not visited yet; `may`: entries created on the way and not visited since. */
  datatype State = State(props: map<Str, Str>, must: set<Str>, may: set<Str>)

  function Start(props: map<Str, Str>): State {
    State(props, props.Keys, {})
  }

  predicate Enabled(s: State, k: Str) {
    k in s.must + s.may && k in s.props
  }

  /** One pass of the loop body. */
  function Visit(f: Mapping, s: State, k: Str): State
    requires Enabled(s, k)
  {
    match f(k)
    case None => s.(must := s.must - {k}, may := s.may - {k})
    case Some(prop) =>
      var rest := s.props - {k};
      State(rest[prop := s.props[k]], s.must - {k}, s.may - {k} + if prop in rest then {} else {prop})
  }

  predicate Legal(f: Mapping, s: State, visits: seq<Str>)
    decreases |visits|
  {
    visits == [] || (Enabled(s, visits[0]) && Legal(f, Visit(f, s, visits[0]), visits[1..]))
  }

  function Reached(f: Mapping, s: State, visits: seq<Str>): State
    requires Legal(f, s, visits)
    decreases |visits|
  {
    if visits == [] then s else Reached(f, Visit(f, s, visits[0]), visits[1..])
  }

  predicate IsRun(f: Mapping, props: map<Str, Str>, visits: seq<Str>) {
    Legal(f, Start(props), visits) && Reached(f, Start(props), visits).must == {}
  }

  /** The loop can turn `props` into `out`. */
  ghost predicate Produces(f: Mapping, props: map<Str, Str>, out: map<Str, Str>) {
    exists visits :: IsRun(f, props, visits) && out == Reached(f, Start(props), visits).props
  }

  // ----- what the loop is for -----

  function NewName(f: Mapping, k: Str): Str {
    match f(k)
    case None => k
    case Some(prop) => prop
  }

  /** Each value is found under the new name of its key, and there is nothing else. */
  ghost predicate IsRenaming(f: Mapping, props: map<Str, Str>, out: map<Str, Str>) {
    && (forall k | k in props :: NewName(f, k) in out && out[NewName(f, k)] == props[k])
    && (forall n | n in out :: exists k :: k in props && NewName(f, k) == n)
  }

  ghost predicate AlwaysRenames(f: Mapping, keys: set<Str>) {
    forall props: map<Str, Str>, out: map<Str, Str> | props.Keys == keys && Produces(f, props, out) ::
      IsRenaming(f, props, out)
  }

  /** New names differ; a key that is renamed does not take an original name; and a new name is not
      renamed again. */
  ghost predicate Independent(f: Mapping, keys: set<Str>) {
    && Distinct(f, keys) && Apart(f, keys)
    && (forall k | k in keys :: Settled(f, k))
  }

  ghost predicate Distinct(f: Mapping, keys: set<Str>) {
    forall k, l | k in keys && l in keys && NewName(f, k) == NewName(f, l) :: k == l
  }

  ghost predicate Apart(f: Mapping, keys: set<Str>) {
    forall k | k in keys && NewName(f, k) in keys :: NewName(f, k) == k
  }

  predicate Settled(f: Mapping, k: Str) {
    NewName(f, NewName(f, k)) == NewName(f, k)
  }

  // ----- the condition suffices -----

  /** An original entry is either still to be visited or found under its new name. */
  ghost predicate EntryOk(f: Mapping, props: map<Str, Str>, s: State, k: Str)
    requires k in props
  {
    var at := if k in s.must then k else NewName(f, k);
    at in s.props && s.props[at] == props[k]
  }

  /** Whatever is there is an original entry before or after its visit. */
  ghost predicate Accounted(f: Mapping, props: map<Str, Str>, s: State, n: Str) {
    n in s.must || exists k :: k in props.Keys - s.must && NewName(f, k) == n
  }

  ghost predicate Inv(f: Mapping, props: map<Str, Str>, s: State) {
    && s.must <= props.Keys
    && (forall k | k in props :: EntryOk(f, props, s, k))
    && (forall n | n in s.props :: Accounted(f, props, s, n))
  }

  lemma VisitMoves(f: Mapping, s: State, k: Str)
    requires Enabled(s, k)
    ensures var t, p := Visit(f, s, k), NewName(f, k);
            && p in t.props && t.props[p] == s.props[k] && t.must == s.must - {k}
            && (forall n | n in t.props && n != p :: n != k && n in s.props)
            && (forall n | n in s.props && n != k && n != p :: n in t.props && t.props[n] == s.props[n])
  {
  }

  /** A visit to a key that is renamed already changes nothing. */
  lemma VisitAgain(f: Mapping, props: map<Str, Str>, s: State, n: Str)
    requires Inv(f, props, s) && Independent(f, props.Keys) && Enabled(s, n) && n !in s.must
    ensures Inv(f, props, Visit(f, s, n))
  {
    assert Accounted(f, props, s, n);
    var k :| k in props.Keys - s.must && NewName(f, k) == n;
    assert Settled(f, k);
    var t := Visit(f, s, n);
    assert t.props == s.props && t.must == s.must;
    forall k | k in props ensures EntryOk(f, props, t, k) {
      assert EntryOk(f, props, s, k);
    }
    forall n | n in t.props ensures Accounted(f, props, t, n) {
      assert Accounted(f, props, s, n);
    }
  }

  lemma EntryStays(f: Mapping, props: map<Str, Str>, s: State, k: Str, l: Str)
    requires Inv(f, props, s) && Independent(f, props.Keys) && Enabled(s, k) && k in s.must && l in props
    ensures EntryOk(f, props, Visit(f, s, k), l)
  {
    VisitMoves(f, s, k);
    assert EntryOk(f, props, s, k) && EntryOk(f, props, s, l);
    if l != k {
      assert NewName(f, l) != NewName(f, k);
      assert l in s.must ==> l != NewName(f, k);
      assert l !in s.must ==> NewName(f, l) != k;
    }
  }

  lemma AccountedStays(f: Mapping, props: map<Str, Str>, s: State, k: Str, n: Str)
    requires Inv(f, props, s) && Enabled(s, k) && k in s.must && n in Visit(f, s, k).props
    ensures Accounted(f, props, Visit(f, s, k), n)
  {
    VisitMoves(f, s, k);
    if n == NewName(f, k) {
      assert k in props.Keys - Visit(f, s, k).must;
    } else {
      assert Accounted(f, props, s, n);
    }
  }

  lemma VisitFirst(f: Mapping, props: map<Str, Str>, s: State, k: Str)
    requires Inv(f, props, s) && Independent(f, props.Keys) && Enabled(s, k) && k in s.must
    ensures Inv(f, props, Visit(f, s, k))
  {
    VisitMoves(f, s, k);
    forall l | l in props ensures EntryOk(f, props, Visit(f, s, k), l) {
      EntryStays(f, props, s, k, l);
    }
    forall n | n in Visit(f, s, k).props ensures Accounted(f, props, Visit(f, s, k), n) {
      AccountedStays(f, props, s, k, n);
    }
  }

  lemma {:induction false} RunKeepsInv(f: Mapping, props: map<Str, Str>, s: State, visits: seq<Str>)
    requires Inv(f, props, s) && Independent(f, props.Keys) && Legal(f, s, visits)
    ensures Inv(f, props, Reached(f, s, visits))
    decreases |visits|
  {
    if visits != [] {
      if visits[0] in s.must {
        VisitFirst(f, props, s, visits[0]);
      } else {
        VisitAgain(f, props, s, visits[0]);
      }
      RunKeepsInv(f, props, Visit(f, s, visits[0]), visits[1..]);
    }
  }

  /** Every order of visits, with or without the keys created on the way, ends with the same renaming. */
  lemma IndependentRenames(f: Mapping, props: map<Str, Str>, out: map<Str, Str>)
    requires Independent(f, props.Keys) && Produces(f, props, out)
    ensures IsRenaming(f, props, out)
  {
    var visits :| IsRun(f, props, visits) && out == Reached(f, Start(props), visits).props;
    RunKeepsInv(f, props, Start(props), visits);
    var t := Reached(f, Start(props), visits);
    forall k | k in props ensures NewName(f, k) in out && out[NewName(f, k)] == props[k] {
      assert EntryOk(f, props, t, k);
    }
    forall n | n in out ensures exists k :: k in props && NewName(f, k) == n {
      assert Accounted(f, props, t, n);
    }
  }

  lemma RenamingIsUnique(f: Mapping, props: map<Str, Str>, out: map<Str, Str>, other: map<Str, Str>)
    requires IsRenaming(f, props, out) && IsRenaming(f, props, other)
    ensures out == other
  {
    forall n | n in out ensures n in other && other[n] == out[n] {
      var k :| k in props && NewName(f, k) == n;
    }
    forall n | n in other ensures n in out {
      var k :| k in props && NewName(f, k) == n;
    }
  }

  // ----- and is necessary -----

  /** The loop can stop as soon as the original entries are visited. */
  lemma {:induction false} Finish(f: Mapping, s: State) returns (visits: seq<Str>)
    requires s.must <= s.props.Keys
    ensures Legal(f, s, visits) && Reached(f, s, visits).must == {}
    ensures forall i | 0 <= i < |visits| :: visits[i] in s.must
    decreases |s.must|
  {
    if s.must == {} {
      visits := [];
    } else {
      var k :| k in s.must;
      var rest := Finish(f, Visit(f, s, k));
      visits := [k] + rest;
      assert visits[1..] == rest;
    }
  }

  lemma {:induction false} ValuesStay(f: Mapping, s: State, visits: seq<Str>, v: Str)
    requires Legal(f, s, visits) && v !in s.props.Values
    ensures v !in Reached(f, s, visits).props.Values
    decreases |visits|
  {
    if visits != [] {
      ValuesStay(f, Visit(f, s, visits[0]), visits[1..], v);
    }
  }

  lemma {:induction false} NameAvoided(f: Mapping, s: State, visits: seq<Str>, n: Str)
    requires Legal(f, s, visits) && n !in s.props
    requires forall i | 0 <= i < |visits| :: NewName(f, visits[i]) != n
    ensures n !in Reached(f, s, visits).props
    decreases |visits|
  {
    if visits != [] {
      NameAvoided(f, Visit(f, s, visits[0]), visits[1..], n);
    }
  }

  /** Entries whose values tell which key they came from. */
  function Marked(keys: set<Str>): (props: map<Str, Str>)
    ensures props.Keys == keys && forall k | k in keys :: props[k] == k
  {
    map k | k in keys :: k
  }

  /** A run that begins with the given visits, continued to its end. */
  lemma Continued(f: Mapping, props: map<Str, Str>, k: Str, rest: seq<Str>)
    requires k in props && Legal(f, Visit(f, Start(props), k), rest)
    requires Reached(f, Visit(f, Start(props), k), rest).must == {}
    ensures Produces(f, props, Reached(f, Visit(f, Start(props), k), rest).props)
  {
    var visits := [k] + rest;
    assert visits[1..] == rest;
    assert IsRun(f, props, visits);
  }

  lemma RenamesDistinctly(f: Mapping, keys: set<Str>)
    requires AlwaysRenames(f, keys)
    ensures Distinct(f, keys)
  {
    var props := Marked(keys);
    var visits := Finish(f, Start(props));
    assert IsRun(f, props, visits);
    var out := Reached(f, Start(props), visits).props;
    assert Produces(f, props, out);
    assert IsRenaming(f, props, out);
  }

  lemma KeepsValues(f: Mapping, props: map<Str, Str>, out: map<Str, Str>, k: Str)
    requires IsRenaming(f, props, out) && k in props
    ensures props[k] in out.Values
  {
    assert out[NewName(f, k)] in out.Values;
  }

  /** Visiting `k` first overwrites the value of the original key that it is renamed to. */
  lemma ValueLost(f: Mapping, keys: set<Str>, k: Str)
    requires k in keys && NewName(f, k) in keys && NewName(f, k) != k
    ensures !AlwaysRenames(f, keys)
  {
    var l, props := NewName(f, k), Marked(keys);
    var s := Visit(f, Start(props), k);
    var rest := Finish(f, s);
    var out := Reached(f, s, rest).props;
    assert l !in s.props.Values;
    ValuesStay(f, s, rest, l);
    Continued(f, props, k, rest);
    if IsRenaming(f, props, out) {
      KeepsValues(f, props, out, l);
    }
  }

  /** If the new name of `k` is renamed again, visiting it too moves the value on. */
  lemma MovedOn(f: Mapping, keys: set<Str>, k: Str)
    requires Distinct(f, keys) && Apart(f, keys) && k in keys && !Settled(f, k)
    ensures !AlwaysRenames(f, keys)
  {
    var n, props := NewName(f, k), Marked(keys);
    var s := Visit(f, Start(props), k);
    var t := Visit(f, s, n);
    var tail := Finish(f, t);
    NameAvoided(f, t, tail, n);
    var rest := [n] + tail;
    assert rest[1..] == tail;
    Continued(f, props, k, rest);
    assert !IsRenaming(f, props, Reached(f, s, rest).props);
  }

  /** The loop always is the plain renaming of a line with the given attributes, whatever their values,
      if and only if the mapping is independent on them. */
  lemma RenamingCondition(f: Mapping, keys: set<Str>)
    ensures AlwaysRenames(f, keys) <==> Independent(f, keys)
  {
    if Independent(f, keys) {
      forall props: map<Str, Str>, out: map<Str, Str> | props.Keys == keys && Produces(f, props, out)
        ensures IsRenaming(f, props, out)
      {
        IndependentRenames(f, props, out);
      }
    }
    if AlwaysRenames(f, keys) {
      RenamesDistinctly(f, keys);
      forall k | k in keys && NewName(f, k) in keys ensures NewName(f, k) == k {
        if NewName(f, k) != k {
          ValueLost(f, keys, k);
        }
      }
      forall k | k in keys ensures Settled(f, k) {
        if !Settled(f, k) {
          MovedOn(f, keys, k);
        }
      }
    }
  }

  // ----- the loop itself -----

  lemma {:induction false} LegalOn(f: Mapping, s: State, visits: seq<Str>, k: Str)
    requires Legal(f, s, visits) && Enabled(Reached(f, s, visits), k)
    ensures Legal(f, s, visits + [k])
    ensures Reached(f, s, visits + [k]) == Visit(f, Reached(f, s, visits), k)
    decreases |visits|
  {
    if visits == [] {
      assert [k][1..] == [];
    } else {
      LegalOn(f, Visit(f, s, visits[0]), visits[1..], k);
      assert (visits + [k])[1..] == visits[1..] + [k];
    }
  }

  /** All entries that are still to be visited exist. */
  predicate Present(s: State) {
    s.must + s.may <= s.props.Keys
  }

  class Line {
    var props: map<Str, Str>

    constructor (props: map<Str, Str>)
      ensures this.props == props
    {
      this.props := props;
    }

    /** One pass of the loop body, and what it does to the bookkeeping of the iteration. */
    method VisitEntry(f: Mapping, attr: Str, must: set<Str>, may: set<Str>)
      returns (must': set<Str>, may': set<Str>)
      requires Enabled(State(props, must, may), attr)
      modifies this
      ensures State(props, must', may') == Visit(f, State(old(props), must, may), attr)
    {
      must', may' := must - {attr}, may - {attr};
      var value := props[attr];
      match f(attr) {
        case None =>
        case Some(prop) =>
          props := props - {attr};
          if prop !in props {
            may' := may' + {prop};
          }
          props := props[prop := value];
      }
    }

    /** `extra` bounds the visits to entries created on the way. */
    method ApplyMapping(f: Mapping, extra: nat)
      modifies this
      ensures Produces(f, old(props), props)
    {
      var must, may, left := props.Keys, {}, extra;
      ghost var visits := [];
      while must != {} || (left > 0 && may != {})
        invariant Present(State(props, must, may))
        invariant Legal(f, Start(old(props)), visits)
        invariant Reached(f, Start(old(props)), visits) == State(props, must, may)
        decreases |must| + left
      {
        var attr :| attr in if left > 0 then must + may else must;
        ghost var before := State(props, must, may);
        LegalOn(f, Start(old(props)), visits, attr);
        VisitKeepsPresent(f, before, attr);
        visits := visits + [attr];
        if attr !in must {
          left := left - 1;
        }
        must, may := VisitEntry(f, attr, must, may);
      }
      assert IsRun(f, old(props), visits);
    }
  }

  lemma VisitKeepsPresent(f: Mapping, s: State, k: Str)
    requires Present(s) && Enabled(s, k)
    ensures Present(Visit(f, s, k))
    ensures Visit(f, s, k).must == s.must - {k}
  {
  }
}
