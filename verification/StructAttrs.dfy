/** The values of structural attributes on their way from C++ to Go: `get_struct_attr_values`
    (mango/mango.cc) flattens them to one list of triples, `GetStructAttrValues` (mango/mango.go)
    regroups that list. */
module StructAttrs {
  import opened Text
  import opened Wrappers

  datatype Name = Name(strct: Str, attr: Str)

  datatype Item = Item(name: Name, value: Str, truncated: bool)

  datatype StructAttr = StructAttr(name: Name, values: seq<Str>, truncated: bool)

  /** All values of an attribute in the order of their ids; none if the engine does not know it. */
  type Engine = Name -> Option<seq<Str>>

  datatype Domain = Domain(name: Name, values: seq<Str>)

  // ----- the configuration value -----

  function Find(s: string, c: char): (i: nat)
    ensures i <= |s| && Free(s[..i], c) && (i < |s| ==> s[i] == c)
  {
    if s == "" || s[0] == c then 0 else Find(s[1..], c) + 1
  }

  function WithCommas(conf: string): (r: string)
    ensures |r| == |conf| && forall i | 0 <= i < |r| :: r[i] == if conf[i] == '|' then ',' else conf[i]
  {
    seq(|conf|, i requires 0 <= i < |conf| => if conf[i] == '|' then ',' else conf[i])
  }

  /** An entry without a dot, the empty one for instance, is ignored. */
  function NameOf(piece: string): Option<Name> {
    var dot := Find(piece, '.');
    if dot == |piece| then None else Some(Name(Str(piece[..dot]), Str(piece[dot + 1..])))
  }

  function Names(pieces: seq<string>): seq<Name> {
    if pieces == [] then []
    else
      var names := Names(pieces[..|pieces| - 1]);
      match NameOf(pieces[|pieces| - 1])
      case None => names
      case Some(name) => names + [name]
  }

  function Parse(conf: string): seq<Name> {
    Names(Split(WithCommas(conf), ','))
  }

  /** The domains of all names, unless the engine does not know one of them. */
  function Resolve(names: seq<Name>, engine: Engine): (r: Option<seq<Domain>>)
    ensures r.Some? ==>
              && |r.value| == |names|
              && forall i | 0 <= i < |names| ::
                   r.value[i].name == names[i] && engine(names[i]) == Some(r.value[i].values)
    ensures r.None? ==> exists i :: 0 <= i < |names| && engine(names[i]) == None
  {
    if names == [] then Some([])
    else
      var n := |names| - 1;
      match Resolve(names[..n], engine)
      case None => None
      case Some(domains) =>
        match engine(names[n])
        case None => None
        case Some(values) => Some(domains + [Domain(names[n], values)])
  }

  // ----- flattening -----

  /** The domain cut to its first `limit` values; a limit that is not positive cuts nothing. */
  function CutDomain(d: Domain, limit: int): (r: StructAttr)
    ensures r.name == d.name
    ensures |r.values| == if r.truncated then limit else |d.values|
    ensures r.truncated <==> 0 < limit < |d.values|
  {
    var truncated := limit > 0 && |d.values| > limit;
    StructAttr(d.name, if truncated then d.values[..limit] else d.values, truncated)
  }

  /** The flag tells whether the values are all of the domain. */
  lemma TruncatedMeansCut(d: Domain, limit: int)
    ensures CutDomain(d, limit).values <= d.values
    ensures CutDomain(d, limit).truncated <==> CutDomain(d, limit).values != d.values
    ensures limit > 0 ==> |CutDomain(d, limit).values| <= limit
    ensures CutDomain(d, limit).values == [] <==> d.values == []
  {
  }

  function CutAll(domains: seq<Domain>, limit: int): (r: seq<StructAttr>)
    ensures |r| == |domains| && forall i | 0 <= i < |r| :: r[i] == CutDomain(domains[i], limit)
  {
    seq(|domains|, i requires 0 <= i < |domains| => CutDomain(domains[i], limit))
  }

  function ItemsOf(a: StructAttr): (items: seq<Item>)
    ensures |items| == |a.values|
    ensures forall i | 0 <= i < |items| :: items[i] == Item(a.name, a.values[i], a.truncated)
  {
    seq(|a.values|, i requires 0 <= i < |a.values| => Item(a.name, a.values[i], a.truncated))
  }

  function Flatten(attrs: seq<StructAttr>): seq<Item> {
    if attrs == [] then [] else Flatten(attrs[..|attrs| - 1]) + ItemsOf(attrs[|attrs| - 1])
  }

  method CollectValues(d: Domain, limit: int, before: seq<Item>) returns (collected: seq<Item>)
    ensures collected == before + ItemsOf(CutDomain(d, limit))
  {
    var idRange := |d.values|;
    var truncated := limit > 0 && idRange > limit;
    var numToCollect := if truncated then limit else idRange;
    collected := before;
    for i := 0 to numToCollect
      invariant collected == before + ItemsOf(CutDomain(d, limit))[..i]
    {
      collected := collected + [Item(d.name, d.values[i], truncated)];
    }
  }

  /** What the names among the first pieces give, if the engine knows them all. */
  ghost predicate CollectedFrom(
    pieces: seq<string>, engine: Engine, limit: int, domains: seq<Domain>, collected: seq<Item>)
  {
    Resolve(Names(pieces), engine) == Some(domains) && collected == Flatten(CutAll(domains, limit))
  }

  method GetStructAttrValuesC(conf: string, limit: int, engine: Engine) returns (r: Option<seq<Item>>)
    ensures match Resolve(Parse(conf), engine)
            case None => r == None
            case Some(domains) => r == Some(Flatten(CutAll(domains, limit)))
  {
    var pieces := Split(WithCommas(conf), ',');
    var collected := [];
    ghost var domains := [];
    for k := 0 to |pieces|
      invariant CollectedFrom(pieces[..k], engine, limit, domains, collected)
    {
      CollectedNext(pieces, k, engine, limit, domains, collected);
      var dot := Find(pieces[k], '.');
      if dot < |pieces[k]| {
        var name := Name(Str(pieces[k][..dot]), Str(pieces[k][dot + 1..]));
        var values := engine(name);
        if values == None {
          UnknownStays(pieces, k + 1, engine);
          return None;
        }
        collected := CollectValues(Domain(name, values.value), limit, collected);
        domains := domains + [Domain(name, values.value)];
      }
    }
    assert pieces[..|pieces|] == pieces;
    return Some(collected);
  }

  lemma CollectedNext(
    pieces: seq<string>, k: nat, engine: Engine, limit: int, domains: seq<Domain>, collected: seq<Item>)
    requires k < |pieces| && CollectedFrom(pieces[..k], engine, limit, domains, collected)
    ensures match NameOf(pieces[k])
            case None => CollectedFrom(pieces[..k + 1], engine, limit, domains, collected)
            case Some(name) =>
              match engine(name)
              case None => Resolve(Names(pieces[..k + 1]), engine) == None
              case Some(values) =>
                var d := Domain(name, values);
                CollectedFrom(pieces[..k + 1], engine, limit, domains + [d], collected + ItemsOf(CutDomain(d, limit)))
  {
    assert pieces[..k + 1][..k] == pieces[..k];
    match NameOf(pieces[k])
    case None =>
    case Some(name) =>
      ResolveNext(Names(pieces[..k]), name, engine);
      match engine(name)
      case None =>
      case Some(values) => FlattenNext(domains, Domain(name, values), limit);
  }

  lemma ResolveNext(names: seq<Name>, name: Name, engine: Engine)
    ensures Resolve(names + [name], engine) ==
            match Resolve(names, engine)
            case None => None
            case Some(domains) =>
              match engine(name)
              case None => None
              case Some(values) => Some(domains + [Domain(name, values)])
  {
    assert (names + [name])[..|names|] == names;
  }

  lemma FlattenNext(domains: seq<Domain>, d: Domain, limit: int)
    ensures Flatten(CutAll(domains + [d], limit)) == Flatten(CutAll(domains, limit)) + ItemsOf(CutDomain(d, limit))
  {
    assert CutAll(domains + [d], limit)[..|domains|] == CutAll(domains, limit);
  }

  lemma {:induction false} FirstNames(pieces: seq<string>, k: nat)
    requires k <= |pieces|
    ensures Names(pieces[..k]) <= Names(pieces)
  {
    if k == |pieces| {
      assert pieces[..k] == pieces;
    } else {
      var n := |pieces| - 1;
      assert pieces[..n][..k] == pieces[..k];
      FirstNames(pieces[..n], k);
    }
  }

  lemma UnknownStays(pieces: seq<string>, k: nat, engine: Engine)
    requires k <= |pieces| && Resolve(Names(pieces[..k]), engine) == None
    ensures Resolve(Names(pieces), engine) == None
  {
    FirstNames(pieces, k);
    var i :| 0 <= i < |Names(pieces[..k])| && engine(Names(pieces[..k])[i]) == None;
    assert Names(pieces)[i] == Names(pieces[..k])[i];
  }

  // ----- regrouping -----

  function AddItem(ret: seq<StructAttr>, item: Item): seq<StructAttr> {
    var n := |ret| - 1;
    if ret == [] || ret[n].name != item.name then ret + [StructAttr(item.name, [item.value], item.truncated)]
    else ret[n := ret[n].(values := ret[n].values + [item.value])]
  }

  function Regroup(items: seq<Item>): seq<StructAttr> {
    if items == [] then [] else AddItem(Regroup(items[..|items| - 1]), items[|items| - 1])
  }

  /** `current` points to the last element of `ret`, if there is one. */
  method GetStructAttrValues(items: seq<Item>) returns (ret: seq<StructAttr>)
    ensures ret == Regroup(items)
  {
    ret := [];
    var current: Option<nat> := None;
    for i := 0 to |items|
      invariant ret == Regroup(items[..i])
      invariant current == if ret == [] then None else Some(|ret| - 1)
    {
      var item := items[i];
      assert items[..i + 1][..i] == items[..i];
      if current == None || ret[current.value].name != item.name {
        assert [] + [item.value] == [item.value];
        ret := ret + [StructAttr(item.name, [], item.truncated)];
        current := Some(|ret| - 1);
      }
      ret := ret[current.value := ret[current.value].(values := ret[current.value].values + [item.value])];
    }
    assert items[..|items|] == items;
  }

  // ----- the round trip -----

  /** What the two sides together make of one more attribute: nothing if it has no values, and more
      values of the last attribute if it has the same name. */
  function AddAttr(ret: seq<StructAttr>, a: StructAttr): seq<StructAttr> {
    var n := |ret| - 1;
    if a.values == [] then ret
    else if ret == [] || ret[n].name != a.name then ret + [a]
    else ret[n := ret[n].(values := ret[n].values + a.values)]
  }

  function Coalesce(attrs: seq<StructAttr>): seq<StructAttr> {
    if attrs == [] then [] else AddAttr(Coalesce(attrs[..|attrs| - 1]), attrs[|attrs| - 1])
  }

  lemma AddedToAttr(ret: seq<StructAttr>, a: StructAttr, value: Str)
    ensures AddItem(AddAttr(ret, a), Item(a.name, value, a.truncated)) ==
            AddAttr(ret, a.(values := a.values + [value]))
  {
    var n := |ret| - 1;
    if a.values == [] {
      assert a.values + [value] == [value];
    } else if ret != [] && ret[n].name == a.name {
      assert ret[n].values + a.values + [value] == ret[n].values + (a.values + [value]);
    }
  }

  lemma RegroupNext(items: seq<Item>, a: StructAttr, value: Str)
    ensures Regroup(items + ItemsOf(a.(values := a.values + [value]))) ==
            AddItem(Regroup(items + ItemsOf(a)), Item(a.name, value, a.truncated))
  {
    var all := items + ItemsOf(a.(values := a.values + [value]));
    assert all == items + ItemsOf(a) + [Item(a.name, value, a.truncated)];
    assert all[..|all| - 1] == items + ItemsOf(a);
  }

  lemma WithoutLast(a: StructAttr) returns (shorter: StructAttr)
    requires a.values != []
    ensures |shorter.values| < |a.values| && a == shorter.(values := shorter.values + [a.values[|a.values| - 1]])
  {
    shorter := a.(values := a.values[..|a.values| - 1]);
  }

  lemma {:induction false} RegroupAppends(items: seq<Item>, a: StructAttr)
    ensures Regroup(items + ItemsOf(a)) == AddAttr(Regroup(items), a)
    decreases |a.values|
  {
    if a.values == [] {
      assert items + ItemsOf(a) == items;
    } else {
      var shorter := WithoutLast(a);
      RegroupAppends(items, shorter);
      RegroupNext(items, shorter, a.values[|a.values| - 1]);
      AddedToAttr(Regroup(items), shorter, a.values[|a.values| - 1]);
    }
  }

  /** For all inputs, what comes out on the Go side. */
  lemma {:induction false} RegroupOfFlatten(attrs: seq<StructAttr>)
    ensures Regroup(Flatten(attrs)) == Coalesce(attrs)
  {
    if attrs != [] {
      var n := |attrs| - 1;
      RegroupOfFlatten(attrs[..n]);
      RegroupAppends(Flatten(attrs[..n]), attrs[n]);
    }
  }

  /** No attribute is without values, and no two neighbours have the same name. */
  predicate Separable(attrs: seq<StructAttr>) {
    if attrs == [] then true
    else
      var n := |attrs| - 1;
      && Separable(attrs[..n]) && attrs[n].values != []
      && (n > 0 ==> attrs[n - 1].name != attrs[n].name)
  }

  lemma {:induction false} SeparableIsKept(attrs: seq<StructAttr>)
    requires Separable(attrs)
    ensures Coalesce(attrs) == attrs
  {
    if attrs != [] {
      SeparableIsKept(attrs[..|attrs| - 1]);
    }
  }

  lemma {:induction false} InseparableIsLost(attrs: seq<StructAttr>)
    requires !Separable(attrs)
    ensures |Coalesce(attrs)| < |attrs|
  {
    var n := |attrs| - 1;
    if Separable(attrs[..n]) {
      SeparableIsKept(attrs[..n]);
    } else {
      InseparableIsLost(attrs[..n]);
    }
  }

  predicate NonEmpty(domains: seq<Domain>) {
    forall i | 0 <= i < |domains| :: |domains[i].values| > 0
  }

  predicate NeighboursDiffer(domains: seq<Domain>) {
    forall i | 0 < i < |domains| :: domains[i - 1].name != domains[i].name
  }

  lemma {:induction false} CutSeparable(domains: seq<Domain>, limit: int)
    ensures Separable(CutAll(domains, limit)) <==> NonEmpty(domains) && NeighboursDiffer(domains)
  {
    if domains != [] {
      var n := |domains| - 1;
      CutSeparable(domains[..n], limit);
      assert CutAll(domains, limit)[..n] == CutAll(domains[..n], limit);
      assert NonEmpty(domains) <==> NonEmpty(domains[..n]) && |domains[n].values| > 0;
      NeighboursSnoc(domains);
    }
  }

  lemma NeighboursSnoc(domains: seq<Domain>)
    requires domains != []
    ensures var n := |domains| - 1;
            NeighboursDiffer(domains) <==>
            NeighboursDiffer(domains[..n]) && (n > 0 ==> domains[n - 1].name != domains[n].name)
  {
    var n := |domains| - 1;
    assert forall i | 0 <= i < n :: domains[..n][i] == domains[i];
  }

  /** The round trip returns each domain cut to its first `limit` values, and the flag exactly where it
      was cut, if and only if every domain has a value and no two neighbours have the same name. */
  lemma RoundTrip(domains: seq<Domain>, limit: int)
    ensures Regroup(Flatten(CutAll(domains, limit))) == CutAll(domains, limit) <==>
            NonEmpty(domains) && NeighboursDiffer(domains)
  {
    var attrs := CutAll(domains, limit);
    RegroupOfFlatten(attrs);
    CutSeparable(domains, limit);
    if Separable(attrs) {
      SeparableIsKept(attrs);
    } else {
      InseparableIsLost(attrs);
    }
  }

  // ----- reading the names back -----

  function Written(name: Name): string {
    name.strct.text + "." + name.attr.text
  }

  function WrittenAll(names: seq<Name>): (r: seq<string>)
    ensures |r| == |names| && forall i | 0 <= i < |r| :: r[i] == Written(names[i])
  {
    seq(|names|, i requires 0 <= i < |names| => Written(names[i]))
  }

  lemma {:induction false} FindIs(s: string, c: char, rest: string)
    requires Free(s, c)
    ensures Find(s + [c] + rest, c) == |s|
  {
    if s == "" {
      assert (s + [c] + rest)[0] == c;
    } else {
      assert (s + [c] + rest)[1..] == s[1..] + [c] + rest;
      FindIs(s[1..], c, rest);
    }
  }

  lemma {:induction false} NamesOfWritten(names: seq<Name>)
    requires forall i | 0 <= i < |names| :: Free(names[i].strct.text, '.')
    ensures Names(WrittenAll(names)) == names
  {
    if names != [] {
      var n := |names| - 1;
      NamesOfWritten(names[..n]);
      assert WrittenAll(names)[..n] == WrittenAll(names[..n]);
      var s, a := names[n].strct.text, names[n].attr.text;
      FindIs(s, '.', a);
      assert s + "." + a == s + ['.'] + a;
      assert (s + "." + a)[..|s|] == s && (s + "." + a)[|s| + 1..] == a;
      assert names == names[..n] + [names[n]];
    }
  }

  /** An entry without a dot, the empty one included, makes no difference. */
  lemma {:induction false} DotlessIsIgnored(before: seq<string>, piece: string, after: seq<string>)
    requires Free(piece, '.')
    ensures Names(before + [piece] + after) == Names(before + after)
  {
    if after == [] {
      assert (before + [piece] + after)[..|before|] == before && before + after == before;
      assert Find(piece, '.') == |piece|;
    } else {
      var n := |after| - 1;
      DotlessIsIgnored(before, piece, after[..n]);
      assert (before + [piece] + after)[..|before| + 1 + n] == before + [piece] + after[..n];
      assert (before + after)[..|before| + n] == before + after[..n];
    }
  }

  /** An empty configuration value names no attribute. */
  lemma NothingToParse()
    ensures Parse("") == []
  {
    SplitOfFree("", ',');
    DotlessIsIgnored([], "", []);
    assert [] + [""] + [] == [""];
  }

  /** A list of attributes, written with commas or bars between them, is read back. */
  lemma ParseWritten(names: seq<Name>, conf: string)
    requires names != []
    requires forall i | 0 <= i < |names| :: Free(names[i].strct.text, '.') && Free(Written(names[i]), ',')
    requires WithCommas(conf) == Join(WrittenAll(names), ',')
    ensures Parse(conf) == names
  {
    SplitOfJoin(WrittenAll(names), ',');
    NamesOfWritten(names);
  }

  /** From the configuration to the Go list. */
  method AvailableValues(conf: string, limit: int, engine: Engine) returns (r: Option<seq<StructAttr>>)
    ensures match Resolve(Parse(conf), engine)
            case None => r == None
            case Some(domains) => r == Some(Coalesce(CutAll(domains, limit)))
  {
    var items := GetStructAttrValuesC(conf, limit, engine);
    if items == None {
      return None;
    }
    var ret := GetStructAttrValues(items.value);
    RegroupOfFlatten(CutAll(Resolve(Parse(conf), engine).value, limit));
    return Some(ret);
  }
}
