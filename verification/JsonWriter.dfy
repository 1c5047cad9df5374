/** The canonical writer as the original runs it: appending bytes to a buffer, member by member. */
module JsonWriter {
  import opened Sorting
  import opened JsonText
  import opened CanonicalJson

  predicate MemberLeq(a: Member, b: Member) { KeyLeq(a.key, b.key) }

  lemma {:induction false} InsertEntries(m: Member, ms: seq<Member>)
    ensures Entries(Insert(MemberLeq, m, ms)) == Insert(EntryLeq, Entry(m.key, Text(m.value)), Entries(ms))
    decreases |ms|
  {
    hide Text, KeyLeq;
    if ms != [] {
      InsertEntries(m, ms[1..]);
      assert Entries(ms)[1..] == Entries(ms[1..]);
    }
  }

  /** Sorting members and then writing them is sorting what is written. */
  lemma {:induction false} SortEntries(ms: seq<Member>)
    ensures Entries(Sort(MemberLeq, ms)) == Sort(EntryLeq, Entries(ms))
    decreases |ms|
  {
    hide Text, Insert, MemberLeq, EntryLeq;
    if ms != [] {
      SortEntries(ms[1..]);
      assert Entries(ms)[1..] == Entries(ms[1..]);
      InsertEntries(ms[0], Sort(MemberLeq, ms[1..]));
    }
  }

  function MemberText(m: Member, first: bool): string { Comma(first) + Quote(m.key) + ":" + Text(m.value) }

  class Buffer {
    var data: seq<Byte>

    constructor ()
      ensures data == []
    {
      data := [];
    }

    method WriteText(t: string)
      modifies this
      ensures data == old(data) + Utf8(t)
    {
      hide EncodeRune;
      for i := 0 to |t|
        invariant data == old(data) + Utf8(t[..i])
      {
        assert t[..i + 1] == t[..i] + [t[i]];
        Utf8Concat(t[..i], [t[i]]);
        data := data + EncodeRune(t[i]);
      }
      assert t[..|t|] == t;
    }

    /** One more piece of a text of which some is already written. */
    method Extend(ghost start: seq<Byte>, ghost written: string, t: string)
      requires data == start + Utf8(written)
      modifies this
      ensures data == start + Utf8(written + t)
    {
      hide Utf8;
      WriteText(t);
      Utf8Concat(written, t);
    }

    method WriteString(s: string)
      modifies this
      ensures data == old(data) + Utf8(Quote(s))
    {
      hide Utf8, Escape;
      ghost var start := data;
      WriteText("\"");
      ghost var written := "\"";
      for i := 0 to |s|
        invariant data == start + Utf8(written) && written + (Escaped(s[i..]) + "\"") == Quote(s)
      {
        assert s[i..][1..] == s[i + 1..];
        Extend(start, written, Escape(s[i]));
        written := written + Escape(s[i]);
      }
      Extend(start, written, "\"");
      assert written + "\"" == Quote(s);
    }

    method Write(x: Node)
      modifies this
      ensures data == old(data) + Utf8(Text(x))
      decreases x, 1
    {
      hide Utf8, Quote, ItemsText, EntriesText, Entries, Sort;
      match x
      case Null => WriteText("null");
      case Bool(b) => WriteText(if b then "true" else "false");
      case Num(t) => WriteText(t);
      case Str(s) => WriteString(s);
      case Arr(items) => WriteItems(items);
      case Obj(ms) => WriteMembers(ms);
    }

    method WriteItems(items: seq<Node>)
      modifies this
      ensures data == old(data) + Utf8("[" + ItemsText(items, true))
      decreases items, 0
    {
      hide Utf8, Text;
      ghost var start := data;
      WriteText("[");
      ghost var written := "[";
      for i := 0 to |items|
        invariant data == start + Utf8(written) && written + ItemsText(items[i..], i == 0) == "[" + ItemsText(items, true)
      {
        assert items[i..][1..] == items[i + 1..];
        if i > 0 {
          Extend(start, written, ",");
          written := written + ",";
        }
        Write(items[i]);
        Utf8Concat(written, Text(items[i]));
        written := written + Text(items[i]);
      }
      Extend(start, written, "]");
    }

    method WriteMember(m: Member, first: bool)
      modifies this
      ensures data == old(data) + Utf8(MemberText(m, first))
      decreases m, 0
    {
      hide Utf8, Text, Quote;
      ghost var start := data;
      WriteText(if first then "" else ",");
      WriteString(m.key);
      Utf8Concat(Comma(first), Quote(m.key));
      Extend(start, Comma(first) + Quote(m.key), ":");
      Write(m.value);
      Utf8Concat(Comma(first) + Quote(m.key) + ":", Text(m.value));
    }

    method WriteMembers(ms: seq<Member>)
      modifies this
      ensures data == old(data) + Utf8("{" + EntriesText(Sort(EntryLeq, Entries(ms)), true))
      decreases ms, 0
    {
      hide Utf8, Text, Quote, Sort, Entries, EntryLeq, MemberLeq;
      ghost var start := data;
      var members := Sort(MemberLeq, ms);
      SortEntries(ms);
      SameElements(members, ms);
      ghost var es := Entries(members);
      WriteText("{");
      ghost var written := "{";
      for i := 0 to |members|
        invariant data == start + Utf8(written) && written + EntriesText(es[i..], i == 0) == "{" + EntriesText(es, true)
      {
        assert es[i..][1..] == es[i + 1..];
        assert members[i] in ms;
        WriteMember(members[i], i == 0);
        Utf8Concat(written, MemberText(members[i], i == 0));
        written := written + MemberText(members[i], i == 0);
      }
      Extend(start, written, "}");
    }
  }

  /** A fresh buffer holds the canonical bytes of the tree. */
  method Canonicalize(x: Node) returns (bytes: seq<Byte>)
    ensures bytes == Utf8(Text(x))
  {
    hide Utf8, Text;
    var out := new Buffer();
    out.Write(x);
    bytes := out.data;
  }
}
