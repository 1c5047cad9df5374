/**
 * A reader of canonical JSON by the grammar, and the round trip: what is
 * written reads back as the same tree, with members in ascending key order.
 */
module JsonReader {
  import opened Sorting
  import opened JsonText
  import opened CanonicalJson
  import opened JsonWriter

  datatype Parsed<+T> = Parsed(value: T, rest: string) | NotJson

  function NumberLength(t: string): (n: nat)
    ensures n <= |t|
  {
    if t == "" || !NumberChar(t[0]) then 0 else 1 + NumberLength(t[1..])
  }

  predicate Starts(t: string, word: string) { |word| <= |t| && t[..|word|] == word }

  function ReadValue(t: string): (r: Parsed<Node>)
    ensures r.Parsed? ==> |r.rest| < |t|
    decreases |t|, 0
  {
    if Starts(t, "null") then Parsed(Null, t[4..])
    else if Starts(t, "true") then Parsed(Bool(true), t[4..])
    else if Starts(t, "false") then Parsed(Bool(false), t[5..])
    else if t == "" then NotJson
    else if t[0] == '\"' then
      var s := ReadChars(t[1..]);
      if s.Bad? then NotJson else Parsed(Str(s.value), s.rest)
    else if Starts(t, "[]") then Parsed(Arr([]), t[2..])
    else if t[0] == '[' then
      var items := ReadItems(t[1..]);
      if items.NotJson? then NotJson else Parsed(Arr(items.value), items.rest)
    else if Starts(t, "{}") then Parsed(Obj([]), t[2..])
    else if t[0] == '{' then
      var members := ReadMembers(t[1..]);
      if members.NotJson? then NotJson else Parsed(Obj(members.value), members.rest)
    else if NumberChar(t[0]) then Parsed(Num(t[..NumberLength(t)]), t[NumberLength(t)..])
    else NotJson
  }

  /** At least one value, separated by commas, up to the closing bracket. */
  function ReadItems(t: string): (r: Parsed<seq<Node>>)
    ensures r.Parsed? ==> |r.rest| < |t|
    decreases |t|, 1
  {
    var v := ReadValue(t);
    if v.NotJson? || v.rest == "" then NotJson
    else if v.rest[0] == ']' then Parsed([v.value], v.rest[1..])
    else if v.rest[0] != ',' then NotJson
    else
      var more := ReadItems(v.rest[1..]);
      if more.NotJson? then NotJson else Parsed([v.value] + more.value, more.rest)
  }

  /** A quoted key, a colon and a value. */
  function ReadMember(t: string): (r: Parsed<Member>)
    ensures r.Parsed? ==> |r.rest| < |t|
    decreases |t|, 1
  {
    if t == "" || t[0] != '\"' then NotJson else
    var key := ReadChars(t[1..]);
    if key.Bad? || key.rest == "" || key.rest[0] != ':' then NotJson else
    var v := ReadValue(key.rest[1..]);
    if v.NotJson? then NotJson else Parsed(Member(key.value, v.value), v.rest)
  }

  function ReadMembers(t: string): (r: Parsed<seq<Member>>)
    ensures r.Parsed? ==> |r.rest| < |t|
    decreases |t|, 2
  {
    var m := ReadMember(t);
    if m.NotJson? || m.rest == "" then NotJson
    else if m.rest[0] == '}' then Parsed([m.value], m.rest[1..])
    else if m.rest[0] != ',' then NotJson
    else
      var more := ReadMembers(m.rest[1..]);
      if more.NotJson? then NotJson else Parsed([m.value] + more.value, more.rest)
  }

  // ---------------------------------------------------------------- the tree as written

  /** The same tree with every object's members in key order. */
  function Canonical(x: Node): Node {
    match x
    case Arr(items) => Arr(CanonicalItems(items))
    case Obj(ms) => Obj(Sort(MemberLeq, CanonicalMembers(ms)))
    case _ => x
  }

  function CanonicalItems(items: seq<Node>): (r: seq<Node>)
    ensures |r| == |items| && forall i :: 0 <= i < |items| ==> r[i] == Canonical(items[i])
  {
    if items == [] then [] else [Canonical(items[0])] + CanonicalItems(items[1..])
  }

  function CanonicalMembers(ms: seq<Member>): (r: seq<Member>)
    ensures |r| == |ms| && forall i :: 0 <= i < |ms| ==> r[i] == Member(ms[i].key, Canonical(ms[i].value))
  {
    if ms == [] then [] else [Member(ms[0].key, Canonical(ms[0].value))] + CanonicalMembers(ms[1..])
  }

  lemma {:induction false} InsertCanonical(m: Member, ms: seq<Member>)
    ensures CanonicalMembers(Insert(MemberLeq, m, ms)) == Insert(MemberLeq, Member(m.key, Canonical(m.value)), CanonicalMembers(ms))
    decreases |ms|
  {
    hide Canonical, KeyLeq;
    if ms != [] {
      InsertCanonical(m, ms[1..]);
      assert CanonicalMembers(ms)[1..] == CanonicalMembers(ms[1..]);
    }
  }

  lemma {:induction false} SortCanonical(ms: seq<Member>)
    ensures CanonicalMembers(Sort(MemberLeq, ms)) == Sort(MemberLeq, CanonicalMembers(ms))
    decreases |ms|
  {
    hide Canonical, Insert, MemberLeq;
    if ms != [] {
      SortCanonical(ms[1..]);
      assert CanonicalMembers(ms)[1..] == CanonicalMembers(ms[1..]);
      InsertCanonical(ms[0], Sort(MemberLeq, ms[1..]));
    }
  }

  // ---------------------------------------------------------------- reading what was written

  lemma {:induction false} NumberReads(t: string, u: string)
    requires (forall i :: 0 <= i < |t| ==> NumberChar(t[i])) && Ends(u)
    ensures NumberLength(t + u) == |t|
    decreases |t|
  {
    if t == "" {
      assert t + u == u;
    } else {
      assert (t + u)[1..] == t[1..] + u && (t + u)[0] == t[0];
      NumberReads(t[1..], u);
    }
  }

  lemma LiteralReads(x: Node, u: string)
    requires x.Null? || x.Bool?
    ensures ReadValue(Text(x) + u) == Parsed(x, u)
  {
    hide ReadItems, ReadMembers, ReadChars;
    var t := Text(x) + u;
    ByFirst(t);
    assert Text(x)[0] == t[0];
    assert t[..|Text(x)|] == Text(x) && t[|Text(x)|..] == u;
  }

  lemma NumberTokenReads(t: string, u: string)
    requires NumberText(t) && Ends(u)
    ensures ReadValue(t + u) == Parsed(Num(t), u)
  {
    hide ReadItems, ReadMembers, ReadChars, NumberLength, Starts;
    NumberReads(t, u);
    var w := t + u;
    assert w[0] == t[0] && NumberChar(w[0]);
    assert w[..|t|] == t && w[|t|..] == u;
    ByFirst(w);
  }

  /** The first character rules out every word that starts otherwise. */
  lemma ByFirst(t: string)
    requires t != ""
    ensures (t[0] != 'n' ==> !Starts(t, "null")) && (t[0] != 't' ==> !Starts(t, "true")) && (t[0] != 'f' ==> !Starts(t, "false"))
    ensures (t[0] != '[' ==> !Starts(t, "[]")) && (t[0] != '{' ==> !Starts(t, "{}"))
  {}

  lemma StringReads(s: string, u: string)
    ensures ReadValue(Quote(s) + u) == Parsed(Str(s), u)
  {
    hide ReadItems, ReadMembers, ReadChars, Escaped, Starts;
    var t := Quote(s) + u;
    StringRoundTrip(s, u);
    assert t[1..] == Escaped(s) + "\"" + u;
    ByFirst(t);
  }

  lemma TwoChars(t: string, w: string)
    requires |t| > 1 && |w| == 2
    ensures Starts(t, w) <==> t[0] == w[0] && t[1] == w[1]
  {}

  lemma BracketReads(t: string)
    requires |t| > 1 && t[0] == '['
    ensures t[1] == ']' ==> ReadValue(t) == Parsed(Arr([]), t[2..])
    ensures t[1] != ']' && ReadItems(t[1..]).Parsed? ==> ReadValue(t) == Parsed(Arr(ReadItems(t[1..]).value), ReadItems(t[1..]).rest)
  {
    hide ReadItems, ReadMembers, ReadChars, Starts;
    ByFirst(t);
    TwoChars(t, "[]");
  }

  lemma BraceReads(t: string)
    requires |t| > 1 && t[0] == '{'
    ensures t[1] == '}' ==> ReadValue(t) == Parsed(Obj([]), t[2..])
    ensures t[1] != '}' && ReadMembers(t[1..]).Parsed? ==> ReadValue(t) == Parsed(Obj(ReadMembers(t[1..]).value), ReadMembers(t[1..]).rest)
  {
    hide ReadItems, ReadMembers, ReadChars, Starts;
    ByFirst(t);
    TwoChars(t, "{}");
  }

  /** A written tree reads back, up to the end of its value, as the same tree in member order. */
  lemma {:induction false} TextReads(x: Node, u: string)
    requires WellFormed(x) && Ends(u)
    ensures ReadValue(Text(x) + u) == Parsed(Canonical(x), u)
    decreases x, 2
  {
    hide ReadValue, ItemsText, EntriesText, Entries, CanonicalItems, CanonicalMembers, Sort, Quote, Ends;
    match x
    case Null => LiteralReads(x, u);
    case Bool(_) => LiteralReads(x, u);
    case Num(t) => NumberTokenReads(t, u);
    case Str(s) => StringReads(s, u);
    case Arr(items) => ArrayReads(items, u);
    case Obj(ms) => ObjectReads(ms, u);
  }

  lemma {:induction false} ArrayReads(items: seq<Node>, u: string)
    requires (forall i :: 0 <= i < |items| ==> WellFormed(items[i])) && Ends(u)
    ensures ReadValue("[" + ItemsText(items, true) + u) == Parsed(Arr(CanonicalItems(items)), u)
    decreases items, |items| + 1
  {
    hide ReadValue, ReadItems, Text, WellFormed, Canonical, Ends;
    var t := "[" + ItemsText(items, true) + u;
    ItemsHead(items, true, u);
    assert t[1..] == ItemsText(items, true) + u && t[1] == t[1..][0];
    BracketReads(t);
    if items == [] {
      assert t[2..] == u;
    } else {
      ItemsRead(items, u);
    }
  }

  lemma {:induction false} ItemsRead(items: seq<Node>, u: string)
    requires items != [] && (forall i :: 0 <= i < |items| ==> WellFormed(items[i])) && Ends(u)
    ensures ReadItems(ItemsText(items, true) + u) == Parsed(CanonicalItems(items), u)
    decreases items, |items|
  {
    hide ReadValue, Text, WellFormed, Canonical, Ends;
    var t := ItemsText(items, true) + u;
    var rest := ItemsText(items[1..], false) + u;
    ItemsUnfold(items, true, u);
    assert t == Text(items[0]) + rest;
    ItemsEnd(items[1..], u);
    TextReads(items[0], rest);
    if |items| == 1 {
      assert rest == "]" + u && rest[1..] == u;
      assert CanonicalItems(items) == [Canonical(items[0])];
    } else {
      ItemsUnfold(items[1..], false, u);
      assert rest[0] == ',' && rest[1..] == ItemsText(items[1..], true) + u by { CommaFirst(items[1..], u); }
      ItemsRead(items[1..], u);
    }
  }

  lemma CommaFirst(items: seq<Node>, u: string)
    requires items != []
    ensures ItemsText(items, false) + u == "," + (ItemsText(items, true) + u)
  {
    hide Text;
    ItemsUnfold(items, false, u);
    ItemsUnfold(items, true, u);
    assert Comma(true) + (Text(items[0]) + (ItemsText(items[1..], false) + u)) == Text(items[0]) + (ItemsText(items[1..], false) + u);
  }

  lemma {:induction false} ObjectReads(ms: seq<Member>, u: string)
    requires (forall i :: 0 <= i < |ms| ==> WellFormed(ms[i].value)) && Ends(u)
    ensures ReadValue("{" + EntriesText(Sort(EntryLeq, Entries(ms)), true) + u) == Parsed(Obj(Sort(MemberLeq, CanonicalMembers(ms))), u)
    decreases ms, |ms| + 2
  {
    hide ReadValue, ReadMembers, Text, WellFormed, Canonical, Ends, Sort, Entries, CanonicalMembers, MemberLeq, EntryLeq;
    var p := Sort(MemberLeq, ms);
    SortEntries(ms);
    SortCanonical(ms);
    SameElements(p, ms);
    var es := Entries(p);
    var t := "{" + EntriesText(es, true) + u;
    EntriesHead(es, true, u);
    assert t[1..] == EntriesText(es, true) + u && t[1] == t[1..][0];
    BraceReads(t);
    if p == [] {
      assert t[2..] == u;
      assert CanonicalMembers(p) == [];
    } else {
      MembersRead(ms, p, u);
    }
  }

  lemma {:induction false} MembersRead(ms: seq<Member>, p: seq<Member>, u: string)
    requires p != [] && (forall m :: m in p ==> m in ms) && (forall i :: 0 <= i < |ms| ==> WellFormed(ms[i].value)) && Ends(u)
    ensures ReadMembers(EntriesText(Entries(p), true) + u) == Parsed(CanonicalMembers(p), u)
    decreases ms, |p|
  {
    hide ReadMember, Text, WellFormed, Canonical, Ends, Quote;
    var es, tail := Entries(p), Entries(p[1..]);
    assert es[1..] == tail && es[0] == Entry(p[0].key, Text(p[0].value));
    var t := EntriesText(es, true) + u;
    var rest := EntriesText(tail, false) + u;
    EntriesUnfold(es, true, u);
    assert t == Quote(p[0].key) + (":" + (Text(p[0].value) + rest));
    EntriesEnd(tail, u);
    assert p[0] in ms;
    var j :| 0 <= j < |ms| && ms[j] == p[0];
    TextReads(ms[j].value, rest);
    MemberReads(p[0], rest);
    assert CanonicalMembers(p)[0] == Member(p[0].key, Canonical(p[0].value)) && CanonicalMembers(p)[1..] == CanonicalMembers(p[1..]);
    if |p| == 1 {
      assert rest == "}" + u && rest[1..] == u;
      assert CanonicalMembers(p) == [Member(p[0].key, Canonical(p[0].value))];
    } else {
      assert rest == "," + (EntriesText(tail, true) + u) by { EntryCommaFirst(tail, u); }
      assert rest[0] == ',' && rest[1..] == EntriesText(tail, true) + u;
      forall m | m in p[1..] ensures m in ms { assert m in p; }
      MembersRead(ms, p[1..], u);
    }
  }

  lemma EntryCommaFirst(es: seq<Entry>, u: string)
    requires es != []
    ensures EntriesText(es, false) + u == "," + (EntriesText(es, true) + u)
  {
    hide Quote;
    EntriesUnfold(es, false, u);
    EntriesUnfold(es, true, u);
    var tail := Quote(es[0].key) + (":" + (es[0].text + (EntriesText(es[1..], false) + u)));
    assert Comma(true) + tail == tail;
  }

  lemma MemberReads(m: Member, rest: string)
    requires ReadValue(Text(m.value) + rest) == Parsed(Canonical(m.value), rest)
    ensures ReadMember(Quote(m.key) + (":" + (Text(m.value) + rest))) == Parsed(Member(m.key, Canonical(m.value)), rest)
  {
    hide ReadValue, Text, Canonical, ReadChars, Escaped;
    var after := ":" + (Text(m.value) + rest);
    var t := Quote(m.key) + after;
    StringRoundTrip(m.key, after);
    assert t[1..] == Escaped(m.key) + "\"" + after;
    assert after[1..] == Text(m.value) + rest;
  }

  // ---------------------------------------------------------------- the tree read back

  ghost predicate KeysAscend(ms: seq<Member>) {
    forall i, j :: 0 <= i < j < |ms| ==> Ascends(Utf16(ms[i].key), Utf16(ms[j].key)) && ms[i].key != ms[j].key
  }

  /** Every object lists its members in strictly ascending order of their keys' code units. */
  ghost predicate InKeyOrder(x: Node) {
    match x
    case Arr(items) => forall i :: 0 <= i < |items| ==> InKeyOrder(items[i])
    case Obj(ms) =>
      && KeysAscend(ms)
      && (forall i :: 0 <= i < |ms| ==> InKeyOrder(ms[i].value))
    case _ => true
  }

  lemma MemberOrder()
    ensures Preorder(MemberLeq)
  {
    hide CompareKeys;
    KeyOrder();
  }

  lemma SortedKeysAscend(ms: seq<Member>)
    requires DistinctKeys(ms)
    ensures KeysAscend(Sort(MemberLeq, ms))
  {
    hide Sort, MemberLeq, Utf16, Ascends;
    var p := Sort(MemberLeq, ms);
    MemberOrder();
    SortSorted(MemberLeq, ms);
    assert Distinct(ms);
    SortDistinct(MemberLeq, ms);
    SameElements(p, ms);
    forall i, j | 0 <= i < j < |p| ensures Ascends(Utf16(p[i].key), Utf16(p[j].key)) && p[i].key != p[j].key {
      KeyLeqExact(p[i].key, p[j].key);
      assert MemberLeq(p[i], p[j]);
      LeqIsKeys(p[i], p[j]);
      assert p[i] in ms && p[j] in ms && p[i] != p[j];
      var a :| 0 <= a < |ms| && ms[a] == p[i];
      var b :| 0 <= b < |ms| && ms[b] == p[j];
    }
  }

  lemma LeqIsKeys(a: Member, b: Member)
    ensures MemberLeq(a, b) <==> KeyLeq(a.key, b.key)
  {}

  lemma {:induction false} CanonicalInOrder(x: Node)
    requires WellFormed(x)
    ensures InKeyOrder(Canonical(x)) && Same(x, Canonical(x))
    decreases x
  {
    hide Sort, CanonicalItems, CanonicalMembers, KeysAscend, MemberLeq, SameMember, NumberText;
    match x
    case Arr(items) =>
      forall i | 0 <= i < |items| ensures InKeyOrder(Canonical(items[i])) && Same(items[i], Canonical(items[i])) { CanonicalInOrder(items[i]); }
    case Obj(ms) =>
      forall i | 0 <= i < |ms| ensures InKeyOrder(Canonical(ms[i].value)) && Same(ms[i].value, Canonical(ms[i].value)) {
        CanonicalInOrder(ms[i].value);
      }
      MembersInOrder(ms);
    case _ =>
  }

  lemma MembersInOrder(ms: seq<Member>)
    requires DistinctKeys(ms)
    requires forall i :: 0 <= i < |ms| ==> InKeyOrder(Canonical(ms[i].value)) && Same(ms[i].value, Canonical(ms[i].value))
    ensures var p := Sort(MemberLeq, CanonicalMembers(ms)); InKeyOrder(Obj(p)) && Same(Obj(ms), Obj(p))
  {
    hide Sort, Canonical, CanonicalMembers, Utf16, Ascends, MemberLeq, Same, Into, Onto, InKeyOrder, DistinctKeys, KeysAscend;
    var cm := CanonicalMembers(ms);
    var p := Sort(MemberLeq, cm);
    KeysKept(ms);
    SortedKeysAscend(cm);
    SameElements(p, cm);
    forall k | 0 <= k < |p| ensures InKeyOrder(p[k].value) && Onto(ms, p[k]) {
      assert p[k] in cm;
      var j :| 0 <= j < |cm| && cm[j] == p[k];
      OntoBy(ms, j, p[k]);
    }
    forall j | 0 <= j < |ms| ensures Into(ms[j], p) {
      assert cm[j] in cm;
      var k :| 0 <= k < |p| && p[k] == cm[j];
      IntoBy(ms[j], p, k);
    }
    ObjectInOrder(p);
    SameObject(ms, p);
  }

  lemma KeysKept(ms: seq<Member>)
    requires DistinctKeys(ms)
    ensures DistinctKeys(CanonicalMembers(ms))
  {
    hide Canonical;
  }

  lemma OntoBy(ms: seq<Member>, j: int, n: Member)
    requires 0 <= j < |ms| && ms[j].key == n.key && Same(ms[j].value, n.value)
    ensures Onto(ms, n)
  {
    assert SameMember(ms[j], n);
  }

  lemma IntoBy(m: Member, p: seq<Member>, k: int)
    requires 0 <= k < |p| && m.key == p[k].key && Same(m.value, p[k].value)
    ensures Into(m, p)
  {
    assert SameMember(m, p[k]);
  }

  lemma ObjectInOrder(p: seq<Member>)
    requires KeysAscend(p) && forall i :: 0 <= i < |p| ==> InKeyOrder(p[i].value)
    ensures InKeyOrder(Obj(p))
  {
    hide KeysAscend;
  }

  /**
   * Round trip: a canonical text reads back, by the grammar, as the tree it was
   * written from up to member order, and in ascending order of keys.
   */
  lemma CanonicalRoundTrip(x: Node)
    requires WellFormed(x)
    ensures var r := ReadValue(Text(x));
            r.Parsed? && r.rest == "" && Same(x, r.value) && InKeyOrder(r.value)
  {
    hide Text, ReadValue, Canonical, InKeyOrder, Same;
    TextReads(x, "");
    assert Text(x) + "" == Text(x);
    CanonicalInOrder(x);
  }
}
