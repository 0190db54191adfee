/** The string functions that the panel takes from its standard library. */
module Text {

  /** White space as TrimSpace understands it. */
  predicate IsSpace(c: char) {
    c in "\t\n\U{0B}\U{0C}\r \U{85}\U{A0}\U{1680}\U{2028}\U{2029}\U{202F}\U{205F}\U{3000}"
        || '\U{2000}' <= c <= '\U{200A}'
  }

  predicate Blank(s: string) { forall i | 0 <= i < |s| :: IsSpace(s[i]) }

  function TrimLeft(s: string): (r: string)
    ensures |r| <= |s|
  {
    if s != "" && IsSpace(s[0]) then TrimLeft(s[1..]) else s
  }

  function TrimRight(s: string): (r: string)
    ensures |r| <= |s|
  {
    if s != "" && IsSpace(s[|s| - 1]) then TrimRight(s[..|s| - 1]) else s
  }

  function TrimSpace(s: string): (r: string)
    ensures |r| <= |s|
  {
    TrimRight(TrimLeft(s))
  }

  function TrimAll(pieces: seq<string>): seq<string> {
    seq(|pieces|, i requires 0 <= i < |pieces| => TrimSpace(pieces[i]))
  }

  /** The pieces between separators; there is always at least one. */
  function Split(s: string, sep: char): (r: seq<string>)
    ensures |r| >= 1
  {
    if s == "" then [""] else Push(s[0], sep, Split(s[1..], sep))
  }

  /** Puts one more character before the pieces. */
  function Push(c: char, sep: char, pieces: seq<string>): (r: seq<string>)
    requires pieces != []
    ensures |r| >= 1
  {
    if c == sep then [""] + pieces else [[c] + pieces[0]] + pieces[1..]
  }

  function Join(parts: seq<string>, sep: char): string {
    if parts == [] then "" else if |parts| == 1 then parts[0] else parts[0] + [sep] + Join(parts[1..], sep)
  }

  // ---------- splitting ----------

  /** Glues the last piece of p to the first piece of q. */
  function Glue(p: seq<string>, q: seq<string>): seq<string>
    requires p != [] && q != []
  {
    p[..|p| - 1] + [p[|p| - 1] + q[0]] + q[1..]
  }

  lemma GluePush(c: char, sep: char, p: seq<string>, q: seq<string>)
    requires p != [] && q != []
    ensures Push(c, sep, Glue(p, q)) == Glue(Push(c, sep, p), q)
  {
    if c == sep {
      assert ([""] + p)[..|p|] == [""] + p[..|p| - 1];
    } else if |p| == 1 {
      assert [c] + (p[0] + q[0]) == ([c] + p[0]) + q[0];
    } else {
      var more := Push(c, sep, p);
      assert more[..|p| - 1] == [[c] + p[0]] + p[1..|p| - 1] && more[|p| - 1] == p[|p| - 1];
      assert Glue(p, q)[0] == p[0] && Glue(p, q)[1..] == p[1..|p| - 1] + [p[|p| - 1] + q[0]] + q[1..];
    }
  }

  lemma GlueBlank(q: seq<string>)
    requires q != []
    ensures Glue([""], q) == q
  {
    assert "" + q[0] == q[0];
  }

  /** Splitting a concatenation glues the pieces at the seam. */
  lemma {:induction false} SplitConcat(a: string, b: string, sep: char)
    ensures Split(a + b, sep) == Glue(Split(a, sep), Split(b, sep))
  {
    if a == "" {
      assert a + b == b;
      GlueBlank(Split(b, sep));
    } else {
      SplitConcat(a[1..], b, sep);
      assert (a + b)[1..] == a[1..] + b;
      GluePush(a[0], sep, Split(a[1..], sep), Split(b, sep));
      hide Glue, Push;
    }
  }

  lemma {:induction false} SplitOfOne(a: string, sep: char)
    requires sep !in a
    ensures Split(a, sep) == [a]
  {
    if a != "" {
      SplitOfOne(a[1..], sep);
      assert a == [a[0]] + a[1..];
    }
  }

  /** Pieces hold no separator, and joining them gives the string back. */
  lemma {:induction false} JoinOfSplit(s: string, sep: char)
    ensures Join(Split(s, sep), sep) == s
    ensures forall i | 0 <= i < |Split(s, sep)| :: sep !in Split(s, sep)[i]
  {
    if s != "" {
      JoinOfSplit(s[1..], sep);
      var rest := Split(s[1..], sep);
      assert s == [s[0]] + s[1..];
      if s[0] != sep {
        assert Split(s, sep)[1..] == rest[1..];
      } else {
        assert Split(s, sep)[1..] == rest;
      }
    }
  }

  lemma SplitAtSep(a: string, b: string, sep: char)
    requires sep !in a
    ensures Split(a + [sep] + b, sep) == [a] + Split(b, sep)
  {
    var tail := [sep] + b;
    assert tail[1..] == b;
    assert Split(tail, sep) == [""] + Split(b, sep);
    SplitOfOne(a, sep);
    SplitConcat(a, tail, sep);
    assert a + [sep] + b == a + tail;
    assert a + "" == a;
  }

  /** Splitting undoes joining when no piece holds a separator. */
  lemma {:induction false} SplitOfJoin(parts: seq<string>, sep: char)
    requires parts != [] && forall i | 0 <= i < |parts| :: sep !in parts[i]
    ensures Split(Join(parts, sep), sep) == parts
  {
    SplitOfOne(parts[0], sep);
    if |parts| > 1 {
      SplitOfJoin(parts[1..], sep);
      SplitAtSep(parts[0], Join(parts[1..], sep), sep);
    }
  }

  // ---------- trimming ----------

  lemma {:induction false} TrimLeftBlank(l: string, x: string)
    requires Blank(l)
    ensures TrimLeft(l + x) == TrimLeft(x)
  {
    hide IsSpace;
    if l == "" {
      assert l + x == x;
    } else {
      TrimLeftBlank(l[1..], x);
      assert (l + x)[1..] == l[1..] + x;
    }
  }

  lemma {:induction false} TrimRightBlank(x: string, r: string)
    requires Blank(r)
    ensures TrimRight(x + r) == TrimRight(x)
  {
    hide IsSpace;
    if r == "" {
      assert x + r == x;
    } else {
      TrimRightBlank(x, r[..|r| - 1]);
      assert (x + r)[..|x + r| - 1] == x + r[..|r| - 1];
    }
  }

  /** What trimming on the left removes, and what it leaves of a string with something after it. */
  lemma {:induction false} TrimLeftCuts(x: string) returns (l: string)
    ensures Blank(l) && x == l + TrimLeft(x)
    ensures TrimLeft(x) != "" ==> !IsSpace(TrimLeft(x)[0])
  {
    hide IsSpace;
    if x != "" && IsSpace(x[0]) {
      var l' := TrimLeftCuts(x[1..]);
      l := [x[0]] + l';
      assert x == [x[0]] + x[1..];
    } else {
      l := "";
    }
  }

  lemma {:induction false} TrimRightCuts(x: string) returns (r: string)
    ensures Blank(r) && x == TrimRight(x) + r
  {
    hide IsSpace;
    if x != "" && IsSpace(x[|x| - 1]) {
      var r' := TrimRightCuts(x[..|x| - 1]);
      r := r' + [x[|x| - 1]];
      assert x == x[..|x| - 1] + [x[|x| - 1]];
    } else {
      r := "";
    }
  }

  lemma {:induction false} BlankTrims(x: string)
    requires Blank(x)
    ensures TrimLeft(x) == "" && TrimRight(x) == ""
  {
    if x != "" { BlankTrims(x[1..]); BlankTrims(x[..|x| - 1]); }
  }

  /** Surrounding white space makes no difference. */
  lemma TrimOfPadded(l: string, x: string, r: string)
    requires Blank(l) && Blank(r)
    ensures TrimSpace(l + x + r) == TrimSpace(x)
  {
    hide IsSpace;
    assert l + x + r == l + (x + r);
    TrimLeftBlank(l, x + r);
    var l' := TrimLeftCuts(x);
    var t := TrimLeft(x);
    assert x + r == l' + (t + r);
    TrimLeftBlank(l', t + r);
    if t == "" {
      assert t + r == r;
      BlankTrims(r);
    } else {
      assert TrimLeft(t + r) == t + r;
      TrimRightBlank(t, r);
    }
  }

  /** A string is its trimmed form between blanks. */
  lemma TrimCuts(x: string) returns (l: string, r: string)
    ensures Blank(l) && Blank(r) && x == l + TrimSpace(x) + r
  {
    l := TrimLeftCuts(x);
    r := TrimRightCuts(TrimLeft(x));
  }

  // ---------- printed lists ----------

  /** One listed item between blanks. */
  datatype Entry = Entry(before: string, name: string, after: string)
  {
    predicate Padded() { Blank(before) && Blank(after) }

    function Text(): string { before + name + after }
  }

  function Texts(entries: seq<Entry>): seq<string> {
    seq(|entries|, i requires 0 <= i < |entries| => entries[i].Text())
  }

  function Listed(entries: seq<Entry>): seq<string> {
    seq(|entries|, i requires 0 <= i < |entries| => entries[i].name)
  }

  /** Splitting and trimming gives back the items of a list, whatever the white space around them. */
  lemma SplitOfPrinted(entries: seq<Entry>, sep: char)
    requires entries != [] && !IsSpace(sep)
    requires forall i | 0 <= i < |entries| ::
               entries[i].Padded() && sep !in entries[i].name && TrimSpace(entries[i].name) == entries[i].name
    ensures TrimAll(Split(Join(Texts(entries), sep), sep)) == Listed(entries)
  {
    hide IsSpace;
    SplitOfJoin(Texts(entries), sep);
    forall i | 0 <= i < |entries| ensures TrimSpace(Texts(entries)[i]) == entries[i].name {
      TrimOfPadded(entries[i].before, entries[i].name, entries[i].after);
    }
    hide TrimSpace, Split, Join;
  }
}
