/** The string formatting the skill relies on: decimal counts, comma-joined
    key lists and runs of `<p>…</p>` elements in spoken text. */
module Text {
  import opened Wrappers

  predicate IsDigit(c: char) {
    '0' <= c <= '9'
  }

  function DigitChar(d: nat): (c: char)
    requires d < 10
    ensures IsDigit(c) && c as int - '0' as int == d
  {
    ('0' as int + d) as char
  }

  /** Decimal rendering of a count, as Python's string formatting gives it: digits only,
      and no leading zero except for 0 itself. */
  function NatToString(n: nat): (s: string)
    ensures |s| >= 1
    ensures forall i :: 0 <= i < |s| ==> IsDigit(s[i])
    ensures n > 0 ==> s[0] != '0'
  {
    if n < 10 then [DigitChar(n)] else NatToString(n / 10) + [DigitChar(n % 10)]
  }

  /** The value of a string of decimal digits, most significant digit first. */
  function DigitsValue(s: string): nat
    requires forall i :: 0 <= i < |s| ==> IsDigit(s[i])
  {
    if s == [] then 0
    else
      assert IsDigit(s[|s| - 1]);
      DigitsValue(s[..|s| - 1]) * 10 + (s[|s| - 1] as int - '0' as int)
  }

  /** Reading the digits back gives the count that was rendered. */
  lemma {:induction false} NatToStringRoundTrip(n: nat)
    ensures DigitsValue(NatToString(n)) == n
  {
    var s := NatToString(n);
    if n < 10 {
      assert s[..|s| - 1] == [];
    } else {
      var high := NatToString(n / 10);
      NatToStringRoundTrip(n / 10);
      assert s[..|s| - 1] == high;
    }
  }

  /** Two counts that render alike are the same count. */
  lemma NatToStringInjective(m: nat, n: nat)
    requires NatToString(m) == NatToString(n)
    ensures m == n
  {
    NatToStringRoundTrip(m);
    NatToStringRoundTrip(n);
  }

  /** Index of the first `c` in `s`, or `|s|` when there is none. */
  function IndexOf(s: string, c: char): (i: nat)
    ensures i <= |s|
    ensures i < |s| ==> s[i] == c
    ensures forall j :: 0 <= j < i ==> s[j] != c
  {
    if s == [] then 0 else if s[0] == c then 0 else 1 + IndexOf(s[1..], c)
  }

  lemma IndexOfFirst(a: string, c: char, b: string)
    requires c !in a
    ensures IndexOf(a + [c] + b, c) == |a|
  {
    var s := a + [c] + b;
    var i := IndexOf(s, c);
    assert s[|a|] == c;
  }

  /** When two strings both start with a field that does not contain `sep`,
      followed by `sep`, the two fields are the same. */
  lemma FieldBeforeSeparator(a: string, b: string, c: string, d: string, sep: char)
    requires sep !in a && sep !in c
    requires a + [sep] + b == c + [sep] + d
    ensures a == c
  {
    IndexOfFirst(a, sep, b);
    IndexOfFirst(c, sep, d);
    assert (a + [sep] + b)[..|a|] == a;
    assert (c + [sep] + d)[..|c|] == c;
  }

  /** The parts joined with the separator between each two of them. */
  function Join(parts: seq<string>, sep: char): string
  {
    if parts == [] then ""
    else if |parts| == 1 then parts[0]
    else parts[0] + [sep] + Join(parts[1..], sep)
  }

  /** Python's split on a one-character separator: never an empty list. */
  function Split(s: string, sep: char): (parts: seq<string>)
    ensures |parts| >= 1
    decreases |s|
  {
    var i := IndexOf(s, sep);
    if i == |s| then [s] else [s[..i]] + Split(s[i + 1..], sep)
  }

  /** Whoever splits the joined list on the separator gets the parts back, in
      order, as long as there is at least one part and no part holds the
      separator. */
  lemma {:induction false} SplitJoinRoundTrip(parts: seq<string>, sep: char)
    requires |parts| >= 1
    requires forall k :: 0 <= k < |parts| ==> sep !in parts[k]
    ensures Split(Join(parts, sep), sep) == parts
  {
    if |parts| == 1 {
      var s := parts[0];
      var i := IndexOf(s, sep);
      assert i == |s|;
    } else {
      var rest := Join(parts[1..], sep);
      var s := parts[0] + [sep] + rest;
      assert Join(parts, sep) == s;
      IndexOfFirst(parts[0], sep, rest);
      assert s[..|parts[0]|] == parts[0];
      assert s[|parts[0]| + 1..] == rest;
      SplitJoinRoundTrip(parts[1..], sep);
      assert parts == [parts[0]] + parts[1..];
    }
  }

  /** One `<p>item</p>` element per item, in order. */
  function Paragraphs(items: seq<string>): string
  {
    if items == [] then "" else "<p>" + items[0] + "</p>" + Paragraphs(items[1..])
  }

  lemma {:induction false} ParagraphsSnoc(items: seq<string>, x: string)
    ensures Paragraphs(items + [x]) == Paragraphs(items) + "<p>" + x + "</p>"
  {
    if items == [] {
      assert [x][1..] == [];
    } else {
      assert (items + [x])[1..] == items[1..] + [x];
      ParagraphsSnoc(items[1..], x);
    }
  }

  /** Reads a run of `<p>…</p>` elements back into its items; an item ends at
      its first '<'. */
  function ReadParagraphs(s: string): Option<seq<string>>
    decreases |s|
  {
    if s == [] then Some([])
    else if |s| < 3 || s[..3] != "<p>" then None
    else
      var body := s[3..];
      var i := IndexOf(body, '<');
      if i + 4 <= |body| && body[i..i + 4] == "</p>" then
        match ReadParagraphs(body[i + 4..])
        case Some(rest) => Some([body[..i]] + rest)
        case None => None
      else None
  }

  /** The spoken list holds exactly the items, one element each, in order:
      reading it back gives them again, whenever no item holds a '<'. */
  lemma {:induction false} ParagraphsRoundTrip(items: seq<string>)
    requires forall k :: 0 <= k < |items| ==> '<' !in items[k]
    ensures ReadParagraphs(Paragraphs(items)) == Some(items)
  {
    if items != [] {
      var x := items[0];
      var tail := Paragraphs(items[1..]);
      var s := "<p>" + x + "</p>" + tail;
      assert Paragraphs(items) == s;
      var body := s[3..];
      assert body == x + ['<'] + ("/p>" + tail);
      IndexOfFirst(x, '<', "/p>" + tail);
      assert body[..|x|] == x;
      assert body[|x|..|x| + 4] == "</p>";
      assert body[|x| + 4..] == tail;
      ParagraphsRoundTrip(items[1..]);
      assert items == [x] + items[1..];
    }
  }

  /** The loop that appends one `<p>item</p>` per item to the speech text. */
  method AppendParagraphs(prefix: string, items: seq<string>) returns (s: string)
    ensures s == prefix + Paragraphs(items)
  {
    s := prefix;
    for i := 0 to |items|
      invariant s == prefix + Paragraphs(items[..i])
    {
      ParagraphsSnoc(items[..i], items[i]);
      assert items[..i + 1] == items[..i] + [items[i]];
      s := s + "<p>" + items[i] + "</p>";
    }
    assert items[..|items|] == items;
  }
}
