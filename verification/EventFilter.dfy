/** Which events an endpoint asks for: a comma-separated list of names, or everything. */
module EventFilter {
  import opened Text

  /** The pieces of the list without surrounding white space. */
  function Names(events: string): seq<string> { TrimAll(Split(events, ',')) }

  predicate Subscribed(events: string, event: string) {
    var list := TrimSpace(events);
    list == "" || list == "*" || event in Names(list)
  }

  method Subscribes(events: string, event: string) returns (yes: bool)
    ensures yes <==> Subscribed(events, event)
  {
    hide TrimSpace, Split;
    var list := TrimSpace(events);
    if list == "" || list == "*" { return true; }
    var pieces := Split(list, ',');
    for i := 0 to |pieces|
      invariant event !in Names(list)[..i]
    {
      assert Names(list)[i] == TrimSpace(pieces[i]);
      if TrimSpace(pieces[i]) == event { return true; }
    }
    yes := false;
  }

  /** An empty list asks for what a star asks for. */
  lemma StarIsEverything(event: string)
    ensures Subscribed("", event) && Subscribed("*", event)
  {
    assert !IsSpace('*');
  }

  // ---------- parsing undoes printing ----------

  /** A name that survives being listed. */
  predicate IsName(name: string) { name != "" && ',' !in name && TrimSpace(name) == name }

  lemma PadPiece(pieces: seq<string>, i: nat, l: string, r: string)
    requires i < |pieces| && Blank(l) && Blank(r)
    ensures TrimAll(pieces[i := l + pieces[i] + r]) == TrimAll(pieces)
  {
    TrimOfPadded(l, pieces[i], r);
    hide TrimSpace;
  }

  lemma NamesAfterBlank(l: string, t: string)
    requires Blank(l)
    ensures Names(l + t) == Names(t)
  {
    SplitOfOne(l, ',');
    SplitConcat(l, t, ',');
    var q := Split(t, ',');
    assert l + q[0] + "" == l + q[0];
    assert Glue([l], q) == q[0 := l + q[0] + ""];
    PadPiece(q, 0, l, "");
  }

  lemma NamesBeforeBlank(t: string, r: string)
    requires Blank(r)
    ensures Names(t + r) == Names(t)
  {
    SplitOfOne(r, ',');
    SplitConcat(t, r, ',');
    var p := Split(t, ',');
    assert "" + p[|p| - 1] + r == p[|p| - 1] + r;
    assert Glue(p, [r]) == p[|p| - 1 := "" + p[|p| - 1] + r];
    PadPiece(p, |p| - 1, "", r);
  }

  /** Trimming the list first changes no name. */
  lemma NamesOfTrimmed(events: string)
    ensures Names(TrimSpace(events)) == Names(events)
  {
    var l, r := TrimCuts(events);
    NamesAfterBlank(l, TrimSpace(events));
    NamesBeforeBlank(l + TrimSpace(events), r);
  }

  /**
   * A printed list of names, whatever the white space around them, matches exactly those names.
   * A list that consists of a single star means everything instead.
   */
  lemma ParsingUndoesPrinting(entries: seq<Entry>, event: string)
    requires entries != [] && forall i | 0 <= i < |entries| :: entries[i].Padded() && IsName(entries[i].name)
    ensures Subscribed(Join(Texts(entries), ','), event) <==> event in Listed(entries) || Listed(entries) == ["*"]
  {
    var events := Join(Texts(entries), ',');
    var list := TrimSpace(events);
    assert !IsSpace(',');
    SplitOfPrinted(entries, ',');
    NamesOfTrimmed(events);
    SplitOfOne("*", ',');
    assert Names("*") == [TrimSpace("*")];
    assert Names("") == [TrimSpace("")];
    assert Names(list)[0] == entries[0].name;
    if Listed(entries) == ["*"] {
      StarIsAlone(events);
    }
  }

  lemma StarIsAlone(events: string)
    requires Names(events) == ["*"]
    ensures TrimSpace(events) == "*"
  {
    JoinOfSplit(events, ',');
    var pieces := Split(events, ',');
    assert pieces == [pieces[0]];
    assert Names(events)[0] == TrimSpace(pieces[0]);
  }

  /** Trimming never leaves a leading blank. */
  lemma TrimmedStartsSolid(x: string)
    ensures TrimSpace(x) != "" ==> !IsSpace(TrimSpace(x)[0])
  {
    var l := TrimLeftCuts(x);
    var r := TrimRightCuts(TrimLeft(x));
    assert TrimSpace(x) != "" ==> TrimLeft(x)[0] == TrimSpace(x)[0];
  }

  /** Only a blank list or a lone star asks for every event. */
  lemma MatchesEverything(events: string)
    ensures (forall event :: Subscribed(events, event)) <==> TrimSpace(events) in {"", "*"}
  {
    var list := TrimSpace(events);
    if list != "" && list != "*" {
      forall i | 0 <= i < |Names(list)| ensures Names(list)[i] != " " {
        TrimmedStartsSolid(Split(list, ',')[i]);
      }
      assert !Subscribed(events, " ");
    }
  }
}
