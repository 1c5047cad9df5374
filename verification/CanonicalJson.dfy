/** The canonical writer of JSON trees: equal bytes exactly for trees equal up to member order. */
module CanonicalJson {
  import opened Sorting
  import opened JsonText

  datatype Node = Null | Bool(value: bool) | Num(digits: string) | Str(text: string) | Arr(items: seq<Node>) | Obj(members: seq<Member>)
  datatype Member = Member(key: string, value: Node)

  /** Characters of a number token; none of them ends a value or starts another kind. */
  predicate NumberChar(c: char) { '0' <= c <= '9' || c == '-' || c == '+' || c == '.' || c == 'e' || c == 'E' }

  predicate NumberText(t: string) { t != "" && forall i :: 0 <= i < |t| ==> NumberChar(t[i]) }

  predicate DistinctKeys(ms: seq<Member>) { forall i, j :: 0 <= i < j < |ms| ==> ms[i].key != ms[j].key }

  /** What the parser yields when it reports no duplicate member. */
  predicate WellFormed(x: Node) {
    match x
    case Num(t) => NumberText(t)
    case Arr(items) => forall i :: 0 <= i < |items| ==> WellFormed(items[i])
    case Obj(ms) => DistinctKeys(ms) && forall i :: 0 <= i < |ms| ==> WellFormed(ms[i].value)
    case _ => true
  }

  /** Equal up to the order of object members. */
  predicate Same(x: Node, y: Node) {
    match x
    case Arr(items) => y.Arr? && |items| == |y.items| && forall i :: 0 <= i < |items| ==> Same(items[i], y.items[i])
    case Obj(ms) =>
      && y.Obj?
      && (forall j :: 0 <= j < |ms| ==> Into(ms[j], y.members)) && (forall k :: 0 <= k < |y.members| ==> Onto(ms, y.members[k]))
    case _ => x == y
  }

  predicate SameMember(m: Member, n: Member)
    decreases m, 0
  {
    m.key == n.key && Same(m.value, n.value)
  }

  predicate Into(m: Member, q: seq<Member>)
    decreases m, 1
  {
    exists k :: 0 <= k < |q| && SameMember(m, q[k])
  }

  predicate Onto(p: seq<Member>, n: Member) { exists j :: 0 <= j < |p| && SameMember(p[j], n) }

  // ---------------------------------------------------------------- the text

  /** A member with its value already written. */
  datatype Entry = Entry(key: string, text: string)

  predicate EntryLeq(a: Entry, b: Entry) { KeyLeq(a.key, b.key) }

  function Text(x: Node): string {
    match x
    case Null => "null"
    case Bool(b) => if b then "true" else "false"
    case Num(t) => t
    case Str(s) => Quote(s)
    case Arr(items) => "[" + ItemsText(items, true)
    case Obj(ms) => "{" + EntriesText(Sort(EntryLeq, Entries(ms)), true)
  }

  function Comma(first: bool): string { if first then "" else "," }

  function ItemsText(items: seq<Node>, first: bool): string {
    if items == [] then "]" else Comma(first) + Text(items[0]) + ItemsText(items[1..], false)
  }

  function Entries(ms: seq<Member>): (r: seq<Entry>)
    ensures |r| == |ms| && forall i :: 0 <= i < |ms| ==> r[i] == Entry(ms[i].key, Text(ms[i].value))
  {
    if ms == [] then [] else [Entry(ms[0].key, Text(ms[0].value))] + Entries(ms[1..])
  }

  function EntriesText(es: seq<Entry>, first: bool): string {
    if es == [] then "}" else Comma(first) + Quote(es[0].key) + ":" + es[0].text + EntriesText(es[1..], false)
  }

  /** What may follow a value. */
  predicate Ends(u: string) { u == "" || u[0] == ',' || u[0] == ']' || u[0] == '}' }

  // ---------------------------------------------------------------- first characters

  datatype Kind = IsNull | IsTrue | IsFalse | IsNumber | IsString | IsArray | IsObject | IsOther

  function KindOf(c: char): Kind {
    if c == 'n' then IsNull else if c == 't' then IsTrue else if c == 'f' then IsFalse
    else if NumberChar(c) then IsNumber else if c == '\"' then IsString
    else if c == '[' then IsArray else if c == '{' then IsObject else IsOther
  }

  function NodeKind(x: Node): Kind {
    match x
    case Null => IsNull
    case Bool(b) => if b then IsTrue else IsFalse
    case Num(_) => IsNumber
    case Str(_) => IsString
    case Arr(_) => IsArray
    case Obj(_) => IsObject
  }

  /** The first character of a text shows the kind of its tree. */
  lemma FirstChar(x: Node)
    requires WellFormed(x)
    ensures Text(x) != "" && KindOf(Text(x)[0]) == NodeKind(x) && NodeKind(x) != IsOther
  {
    hide ItemsText, EntriesText, Entries, Escaped;
  }

  lemma SameKind(x: Node, y: Node, u: string, v: string)
    requires WellFormed(x) && WellFormed(y) && Text(x) + u == Text(y) + v
    ensures NodeKind(x) == NodeKind(y)
  {
    hide Text, WellFormed;
    FirstChar(x);
    FirstChar(y);
    assert (Text(x) + u)[0] == Text(x)[0] && (Text(y) + v)[0] == Text(y)[0];
  }

  lemma Overhang(a: string, b: string, u: string, v: string)
    requires a + u == b + v && |a| < |b| && NumberText(b)
    ensures u != "" && NumberChar(u[0])
  {
    assert (a + u)[|a|] == u[0] && (b + v)[|a|] == b[|a|];
  }

  /** A number token ends where the first other character stands. */
  lemma NumberSplit(a: string, b: string, u: string, v: string)
    requires NumberText(a) && NumberText(b) && Ends(u) && Ends(v) && a + u == b + v
    ensures a == b && u == v
  {
    hide NumberText;
    if |a| < |b| { Overhang(a, b, u, v); }
    if |b| < |a| { Overhang(b, a, v, u); }
    assert |a| == |b|;
    assert a == (a + u)[..|a|] == (b + v)[..|b|] == b;
    Cancel(a, u, v);
  }

  // ---------------------------------------------------------------- equal texts, equal trees

  lemma Cancel(p: string, u: string, v: string)
    requires p + u == p + v
    ensures u == v
  {
    assert u == (p + u)[|p|..] == v;
  }

  /**
   * A text followed by the end of its value determines the tree up to member
   * order, and what follows.
   */
  lemma {:induction false} TextDetermines(x: Node, y: Node, u: string, v: string)
    requires WellFormed(x) && WellFormed(y) && Ends(u) && Ends(v) && Text(x) + u == Text(y) + v
    ensures Same(x, y) && u == v
    decreases x, 1
  {
    hide ItemsText, EntriesText, Entries, Quote, Ends, NumberText, Sort, Same, SameMember, KindOf;
    SameKind(x, y, u, v);
    match x
    case Null => Cancel("null", u, v); SameLeaf(x, y);
    case Bool(b) => Cancel(if b then "true" else "false", u, v); SameLeaf(x, y);
    case Num(t) => NumberSplit(t, y.digits, u, v); SameLeaf(x, y);
    case Str(s) => QuoteInjective(s, y.text, u, v); SameLeaf(x, y);
    case Arr(items) =>
      assert Text(x) + u == "[" + (ItemsText(items, true) + u) && Text(y) + v == "[" + (ItemsText(y.items, true) + v);
      Cancel("[", ItemsText(items, true) + u, ItemsText(y.items, true) + v);
      ItemsDetermine(items, y.items, true, u, v);
      SameArray(items, y.items);
    case Obj(ms) => ObjectDetermines(ms, y.members, u, v);
  }

  lemma SameLeaf(x: Node, y: Node)
    requires x == y && !x.Arr? && !x.Obj?
    ensures Same(x, y)
  {}

  lemma SameArray(p: seq<Node>, q: seq<Node>)
    requires |p| == |q| && forall i :: 0 <= i < |p| ==> Same(p[i], q[i])
    ensures Same(Arr(p), Arr(q))
  {}

  lemma ItemsEnd(items: seq<Node>, u: string)
    ensures Ends(ItemsText(items, false) + u)
  {
    hide Text;
  }

  lemma EntriesEnd(es: seq<Entry>, u: string)
    ensures Ends(EntriesText(es, false) + u)
  {
    hide Quote;
  }

  /** The first item and the rest, past the comma. */
  lemma ItemsUnfold(items: seq<Node>, first: bool, u: string)
    requires items != []
    ensures ItemsText(items, first) + u == Comma(first) + (Text(items[0]) + (ItemsText(items[1..], false) + u))
  {
    hide Text;
  }

  lemma ItemsHead(items: seq<Node>, first: bool, u: string)
    requires forall i :: 0 <= i < |items| ==> WellFormed(items[i])
    ensures ItemsText(items, first) != "" && ((ItemsText(items, first) + u)[0] == ']' <==> items == [])
  {
    hide Text, WellFormed;
    if items != [] {
      FirstChar(items[0]);
    }
  }

  lemma {:induction false} ItemsDetermine(p: seq<Node>, q: seq<Node>, first: bool, u: string, v: string)
    requires (forall i :: 0 <= i < |p| ==> WellFormed(p[i])) && (forall i :: 0 <= i < |q| ==> WellFormed(q[i]))
    requires ItemsText(p, first) + u == ItemsText(q, first) + v && Ends(u) && Ends(v)
    ensures |p| == |q| && (forall i :: 0 <= i < |p| ==> Same(p[i], q[i])) && u == v
    decreases p, 0
  {
    hide Text, Ends, WellFormed, Same;
    ItemsHead(p, first, u);
    ItemsHead(q, first, v);
    if p == [] {
      Cancel("]", u, v);
    } else {
      var a, b := ItemsText(p[1..], false) + u, ItemsText(q[1..], false) + v;
      ItemsUnfold(p, first, u);
      ItemsUnfold(q, first, v);
      Cancel(Comma(first), Text(p[0]) + a, Text(q[0]) + b);
      ItemsEnd(p[1..], u);
      ItemsEnd(q[1..], v);
      TextDetermines(p[0], q[0], a, b);
      ItemsDetermine(p[1..], q[1..], false, u, v);
      forall i | 0 <= i < |p| ensures Same(p[i], q[i]) {
        if i > 0 { assert Same(p[1..][i - 1], q[1..][i - 1]); }
      }
    }
  }

  // ---------------------------------------------------------------- objects

  predicate FromMember(ms: seq<Member>, e: Entry, j: int) {
    0 <= j < |ms| && e == Entry(ms[j].key, Text(ms[j].value))
  }

  ghost predicate IsMember(ms: seq<Member>, e: Entry) { exists j :: FromMember(ms, e, j) }

  ghost predicate AllFrom(ms: seq<Member>, es: seq<Entry>) { forall i :: 0 <= i < |es| ==> IsMember(ms, es[i]) }

  /** Every entry is a member of the object, and every member has its entry. */
  ghost predicate Listed(ms: seq<Member>, es: seq<Entry>) {
    && AllFrom(ms, es)
    && (forall j :: 0 <= j < |ms| ==> Entry(ms[j].key, Text(ms[j].value)) in es)
  }

  lemma ListedFrom(ms: seq<Member>)
    ensures Listed(ms, Sort(EntryLeq, Entries(ms))) && |Sort(EntryLeq, Entries(ms))| == |ms|
  {
    hide Text, Sort, Entries, EntryLeq;
    var es := Sort(EntryLeq, Entries(ms));
    SameElements(es, Entries(ms));
    forall i | 0 <= i < |es| ensures IsMember(ms, es[i]) {
      assert es[i] in Entries(ms);
      var j :| 0 <= j < |ms| && Entries(ms)[j] == es[i];
      assert FromMember(ms, es[i], j);
    }
    forall j | 0 <= j < |ms| ensures Entry(ms[j].key, Text(ms[j].value)) in es {
      assert Entries(ms)[j] in Entries(ms);
    }
  }

  /** The two entries come from members with the same key and the same value. */
  ghost predicate Paired(p: seq<Member>, q: seq<Member>, e: Entry, f: Entry) {
    exists j, k :: FromMember(p, e, j) && FromMember(q, f, k) && SameMember(p[j], q[k])
  }

  lemma AllFromTail(ms: seq<Member>, es: seq<Entry>)
    requires AllFrom(ms, es) && es != []
    ensures AllFrom(ms, es[1..])
  {
    hide IsMember;
  }

  lemma EntriesUnfold(es: seq<Entry>, first: bool, u: string)
    requires es != []
    ensures EntriesText(es, first) + u == Comma(first) + (Quote(es[0].key) + (":" + (es[0].text + (EntriesText(es[1..], false) + u))))
  {
    hide Quote;
  }

  lemma EntriesHead(es: seq<Entry>, first: bool, u: string)
    ensures EntriesText(es, first) != "" && ((EntriesText(es, first) + u)[0] == '}' <==> es == [])
  {
    hide Escaped;
  }

  lemma {:induction false} EntriesDetermine(p: seq<Member>, q: seq<Member>, es: seq<Entry>, fs: seq<Entry>, first: bool, u: string, v: string)
    requires (forall i :: 0 <= i < |p| ==> WellFormed(p[i].value)) && (forall i :: 0 <= i < |q| ==> WellFormed(q[i].value))
    requires AllFrom(p, es) && AllFrom(q, fs) && Ends(u) && Ends(v)
    requires EntriesText(es, first) + u == EntriesText(fs, first) + v
    ensures |es| == |fs| && (forall i :: 0 <= i < |es| ==> Paired(p, q, es[i], fs[i])) && u == v
    decreases p, |es|
  {
    hide Text, Ends, WellFormed, Same, Quote;
    EntriesHead(es, first, u);
    EntriesHead(fs, first, v);
    if es == [] {
      Cancel("}", u, v);
    } else {
      var a, b := EntriesText(es[1..], false) + u, EntriesText(fs[1..], false) + v;
      EntriesUnfold(es, first, u);
      EntriesUnfold(fs, first, v);
      Cancel(Comma(first), Quote(es[0].key) + (":" + (es[0].text + a)), Quote(fs[0].key) + (":" + (fs[0].text + b)));
      QuoteInjective(es[0].key, fs[0].key, ":" + (es[0].text + a), ":" + (fs[0].text + b));
      Cancel(":", es[0].text + a, fs[0].text + b);
      EntriesEnd(es[1..], u);
      EntriesEnd(fs[1..], v);
      var j :| FromMember(p, es[0], j);
      var k :| FromMember(q, fs[0], k);
      TextDetermines(p[j].value, q[k].value, a, b);
      AllFromTail(p, es);
      AllFromTail(q, fs);
      EntriesDetermine(p, q, es[1..], fs[1..], false, u, v);
      forall i | 0 <= i < |es| ensures Paired(p, q, es[i], fs[i]) {
        if i > 0 { assert Paired(p, q, es[1..][i - 1], fs[1..][i - 1]); }
      }
    }
  }

  lemma SameKeySameMember(ms: seq<Member>, j: int, k: int)
    requires DistinctKeys(ms) && 0 <= j < |ms| && 0 <= k < |ms| && ms[j].key == ms[k].key
    ensures j == k
  {}

  lemma PairForward(p: seq<Member>, q: seq<Member>, es: seq<Entry>, fs: seq<Entry>, j: int)
    requires DistinctKeys(p) && Listed(p, es) && 0 <= j < |p|
    requires |es| == |fs| && forall i :: 0 <= i < |es| ==> Paired(p, q, es[i], fs[i])
    ensures Into(p[j], q)
  {
    hide Text, DistinctKeys, SameMember;
    var e := Entry(p[j].key, Text(p[j].value));
    assert e in es;
    var i :| 0 <= i < |es| && es[i] == e;
    var jj, k :| FromMember(p, es[i], jj) && FromMember(q, fs[i], k) && SameMember(p[jj], q[k]);
    SameKeySameMember(p, j, jj);
  }

  lemma PairBackward(p: seq<Member>, q: seq<Member>, es: seq<Entry>, fs: seq<Entry>, k: int)
    requires DistinctKeys(q) && Listed(q, fs) && 0 <= k < |q|
    requires |es| == |fs| && forall i :: 0 <= i < |es| ==> Paired(p, q, es[i], fs[i])
    ensures Onto(p, q[k])
  {
    hide Text, DistinctKeys, SameMember;
    var f := Entry(q[k].key, Text(q[k].value));
    assert f in fs;
    var i :| 0 <= i < |fs| && fs[i] == f;
    var j, kk :| FromMember(p, es[i], j) && FromMember(q, fs[i], kk) && SameMember(p[j], q[kk]);
    SameKeySameMember(q, k, kk);
  }

  lemma SameObject(p: seq<Member>, q: seq<Member>)
    requires (forall j :: 0 <= j < |p| ==> Into(p[j], q)) && (forall k :: 0 <= k < |q| ==> Onto(p, q[k]))
    ensures Same(Obj(p), Obj(q))
  {}

  lemma {:induction false} ObjectDetermines(p: seq<Member>, q: seq<Member>, u: string, v: string)
    requires WellFormed(Obj(p)) && WellFormed(Obj(q)) && Ends(u) && Ends(v) && Text(Obj(p)) + u == Text(Obj(q)) + v
    ensures Same(Obj(p), Obj(q)) && u == v
    decreases p, |p| + 1
  {
    hide EntriesText, Entries, Ends, Sort, Same, SameMember, DistinctKeys, Listed, Paired, Into, Onto, AllFrom;
    var es, fs := Sort(EntryLeq, Entries(p)), Sort(EntryLeq, Entries(q));
    assert Text(Obj(p)) + u == "{" + (EntriesText(es, true) + u) && Text(Obj(q)) + v == "{" + (EntriesText(fs, true) + v);
    Cancel("{", EntriesText(es, true) + u, EntriesText(fs, true) + v);
    ListedFrom(p);
    ListedFrom(q);
    ListedAllFrom(p, es);
    ListedAllFrom(q, fs);
    EntriesDetermine(p, q, es, fs, true, u, v);
    forall j | 0 <= j < |p| ensures Into(p[j], q) { PairForward(p, q, es, fs, j); }
    forall k | 0 <= k < |q| ensures Onto(p, q[k]) { PairBackward(p, q, es, fs, k); }
    SameObject(p, q);
  }

  lemma ListedAllFrom(ms: seq<Member>, es: seq<Entry>)
    requires Listed(ms, es)
    ensures AllFrom(ms, es)
  {}

  // ---------------------------------------------------------------- same trees, equal texts

  lemma {:induction false} SameText(x: Node, y: Node)
    requires WellFormed(x) && WellFormed(y) && Same(x, y)
    ensures Text(x) == Text(y)
    decreases x, 1
  {
    hide ItemsText, EntriesText, Sort, Quote, NumberText, Entries, SameMember, DistinctKeys, Into, Onto;
    match x
    case Arr(items) => SameItems(items, y.items, true);
    case Obj(ms) =>
      SameMembers(ms, y.members);
      forall j | 0 <= j < |ms| ensures Entries(ms)[j] in Entries(y.members) { EntryInto(ms[j], y.members); }
      forall k | 0 <= k < |y.members| ensures Entries(y.members)[k] in Entries(ms) { EntryOnto(ms, y.members[k]); }
      SortedAlike(ms, y.members);
    case _ =>
  }

  lemma SameMembers(p: seq<Member>, q: seq<Member>)
    requires Same(Obj(p), Obj(q))
    ensures (forall j :: 0 <= j < |p| ==> Into(p[j], q)) && (forall k :: 0 <= k < |q| ==> Onto(p, q[k]))
  {}

  lemma {:induction false} EntryInto(m: Member, q: seq<Member>)
    requires Into(m, q) && WellFormed(m.value) && forall i :: 0 <= i < |q| ==> WellFormed(q[i].value)
    ensures Entry(m.key, Text(m.value)) in Entries(q)
    decreases m, 1
  {
    hide Text, WellFormed, SameMember, Entries;
    var k :| 0 <= k < |q| && SameMember(m, q[k]);
    SameEntry(m, q[k]);
    assert Entries(q)[k] in Entries(q);
  }

  lemma {:induction false} EntryOnto(p: seq<Member>, n: Member)
    requires Onto(p, n) && WellFormed(n.value) && forall i :: 0 <= i < |p| ==> WellFormed(p[i].value)
    ensures Entry(n.key, Text(n.value)) in Entries(p)
    decreases p, 1
  {
    hide Text, WellFormed, SameMember, Entries;
    var j :| 0 <= j < |p| && SameMember(p[j], n);
    SameEntry(p[j], n);
    assert Entries(p)[j] in Entries(p);
  }

  lemma {:induction false} SameEntry(m: Member, n: Member)
    requires SameMember(m, n) && WellFormed(m.value) && WellFormed(n.value)
    ensures m.key == n.key && Text(m.value) == Text(n.value)
    decreases m, 0
  {
    hide Text, WellFormed, Same;
    SameText(m.value, n.value);
  }

  lemma {:induction false} SameItems(p: seq<Node>, q: seq<Node>, first: bool)
    requires (forall i :: 0 <= i < |p| ==> WellFormed(p[i])) && (forall i :: 0 <= i < |q| ==> WellFormed(q[i]))
    requires |p| == |q| && forall i :: 0 <= i < |p| ==> Same(p[i], q[i])
    ensures ItemsText(p, first) == ItemsText(q, first)
    decreases p, 0
  {
    hide Text, WellFormed, Same;
    if p != [] {
      SameText(p[0], q[0]);
      SameItems(p[1..], q[1..], false);
    }
  }

  lemma EntryOrder()
    ensures Preorder(EntryLeq)
  {
    hide CompareKeys;
    KeyOrder();
  }

  /** Two objects with the same entries list them alike, in the one order of their keys. */
  lemma SortedAlike(p: seq<Member>, q: seq<Member>)
    requires DistinctKeys(p) && DistinctKeys(q) && forall e :: e in Entries(p) <==> e in Entries(q)
    ensures Sort(EntryLeq, Entries(p)) == Sort(EntryLeq, Entries(q))
  {
    hide Text, Sort, KeyLeq, EntryLeq;
    var es, fs := Sort(EntryLeq, Entries(p)), Sort(EntryLeq, Entries(q));
    EntryOrder();
    SortSorted(EntryLeq, Entries(p));
    SortSorted(EntryLeq, Entries(q));
    SortDistinct(EntryLeq, Entries(p));
    SortDistinct(EntryLeq, Entries(q));
    SameElements(es, Entries(p));
    SameElements(fs, Entries(q));
    forall a, b | a in es && b in fs && EntryLeq(a, b) && EntryLeq(b, a) ensures a == b {
      assert a in Entries(q) && b in Entries(q);
      TellApart(q, a, b);
    }
    SortedUnique(EntryLeq, es, fs);
  }

  lemma TellApart(ms: seq<Member>, a: Entry, b: Entry)
    requires DistinctKeys(ms) && a in Entries(ms) && b in Entries(ms) && EntryLeq(a, b) && EntryLeq(b, a)
    ensures a == b
  {
    hide Text, CompareKeys;
    KeyOrder();
    var j :| 0 <= j < |ms| && Entries(ms)[j] == a;
    var k :| 0 <= k < |ms| && Entries(ms)[k] == b;
    SameKeySameMember(ms, j, k);
  }

  /** Two duplicate-free trees have the same canonical bytes exactly when they differ by member order alone. */
  lemma CanonicalIffSame(x: Node, y: Node)
    requires WellFormed(x) && WellFormed(y)
    ensures Utf8(Text(x)) == Utf8(Text(y)) <==> Same(x, y)
  {
    hide Text, WellFormed, Same, Utf8;
    Utf8Injective(Text(x), Text(y));
    if Text(x) == Text(y) { TextDetermines(x, y, "", ""); }
    if Same(x, y) { SameText(x, y); }
  }
}
