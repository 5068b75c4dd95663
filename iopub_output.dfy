/** What the kernel broadcasts on its IOPub channel and the text each broadcast
    contributes to an execution report. Both servers apply the same rules. */
module IopubOutput {
  import opened Outcomes
  import opened PyText

  /** The content of a broadcast message, read once by its `msg_type`. Absent fields
      are given the defaults the servers' `get` calls use (`''` for texts, `[]` for the
      traceback); an absent `ename` is kept apart because its default is `'Error'`. */
  datatype Content =
    | Stream(text: string)
    | ExecuteResult(plainText: string)
    | Error(ename: Option<string>, evalue: string, traceback: seq<string>)
    | Status(executionState: string)
    | Ignored

  /** A status message saying the kernel has gone back to idle. */
  predicate IsIdle(c: Content) {
    c.Status? && c.executionState == "idle"
  }

  const CrossMark: string := "\U{274C}"
  const CheckMark: string := "\U{2705}"
  const WarningSign: string := "\U{26A0}\U{FE0F}"

  const Esc: char := '\U{1B}'
  /** The four terminal colour sequences the traceback cleaner deletes, in its order. */
  const Red: string := [Esc] + "[0;31m"
  const Reset: string := [Esc] + "[0m"
  const BoldGreen: string := [Esc] + "[1;32m"
  const Green: string := [Esc] + "[0;32m"

  /** One traceback line with the four colour sequences deleted, one after another. */
  function CleanLine(line: string): (r: string)
    ensures |r| <= |line|
  {
    RemoveAll(RemoveAll(RemoveAll(RemoveAll(line, Red), Reset), BoldGreen), Green)
  }

  /** A traceback line without escape characters is left exactly as it was. */
  lemma CleanLineKeepsPlainText(line: string)
    requires Esc !in line
    ensures CleanLine(line) == line
  {
    NoOccurrenceWithoutLead(line, Red);
    NoOccurrenceWithoutLead(line, Reset);
    NoOccurrenceWithoutLead(line, BoldGreen);
    NoOccurrenceWithoutLead(line, Green);
  }

  /** The cleaner makes one pass per sequence: deleting an inner sequence can bring the
      pieces of another one together, which then stays. */
  lemma CleanLineIsOnePass()
    ensures CleanLine([Esc] + "[0" + Reset + "m") == Reset
  {
    var s := [Esc, '[', '0', Esc, '[', '0', 'm', 'm'];
    assert s == [Esc] + "[0" + Reset + "m";
    var t, u, v := s[1..], s[2..], s[3..];
    assert t == ['[', '0', Esc, '[', '0', 'm', 'm'] && u == ['0', Esc, '[', '0', 'm', 'm'];
    assert v == [Esc, '[', '0', 'm', 'm'];
    assert RemoveAll(s, Red) == s by {
      assert s[..|Red|] != Red by { assert s[3] != Red[3]; }
      assert t[..|Red|] != Red by { assert t[0] != Red[0]; }
      assert RemoveAll(t, Red) == [t[0]] + u;
    }
    assert RemoveAll(s, Reset) == Reset by {
      assert v[..|Reset|] == Reset && v[|Reset|..] == "m";
      assert u[..|Reset|] != Reset by { assert u[0] != Reset[0]; }
      assert t[..|Reset|] != Reset by { assert t[0] != Reset[0]; }
      assert s[..|Reset|] != Reset by { assert s[3] != Reset[3]; }
      assert RemoveAll(u, Reset) == [u[0]] + RemoveAll(v, Reset);
      assert RemoveAll(t, Reset) == [t[0]] + RemoveAll(u, Reset);
      assert RemoveAll(s, Reset) == [s[0]] + RemoveAll(t, Reset);
    }
  }

  /** The four colour sequences, in the order the cleaner deletes them. */
  const Colours: seq<string> := [Red, Reset, BoldGreen, Green]

  type ColourIndex = k: int | 0 <= k < 4

  /** Each colour sequence starts with the escape character and has no other one. */
  lemma ColourShape(k: ColourIndex)
    ensures Colours[k] != [] && Colours[k][0] == Esc && Esc !in Colours[k][1..]
  {
  }

  /** Two different colour sequences differ at a position both of them have. */
  lemma ColoursDiverge(m: ColourIndex, k: ColourIndex) returns (j: nat)
    requires m != k
    ensures j < |Colours[m]| && j < |Colours[k]| && Colours[m][j] != Colours[k][j]
  {
    // Red and Green differ in their fifth character only; every other pair earlier.
    if {m, k} == {0, 3} {
      j := 5;
    } else if {m, k} == {0, 1} || {m, k} == {1, 3} {
      j := 3;
    } else {
      j := 2;
    }
  }

  /** A traceback line as a terminal shows it: plain texts, each followed by the colour
      sequence it names when that colour is in `shown`, then a plain tail. */
  function Coloured(pieces: seq<(string, ColourIndex)>, tail: string, shown: set<ColourIndex>): string {
    if pieces == [] then tail
    else pieces[0].0 + (Shown(pieces[0].1, shown) + Coloured(pieces[1..], tail, shown))
  }

  /** The colour sequence `m` when it is shown, otherwise nothing. */
  function Shown(m: ColourIndex, shown: set<ColourIndex>): string {
    if m in shown then Colours[m] else ""
  }

  /** The texts of the pieces and the tail, without any colour. */
  function PlainText(pieces: seq<(string, ColourIndex)>, tail: string): string {
    if pieces == [] then tail else pieces[0].0 + PlainText(pieces[1..], tail)
  }

  predicate EscapeFree(pieces: seq<(string, ColourIndex)>, tail: string) {
    Esc !in tail && forall i :: 0 <= i < |pieces| ==> Esc !in pieces[i].0
  }

  /** Showing no colour gives the plain text. */
  lemma {:induction false} ColouredWithoutColours(pieces: seq<(string, ColourIndex)>, tail: string)
    ensures Coloured(pieces, tail, {}) == PlainText(pieces, tail)
  {
    if pieces != [] {
      ColouredWithoutColours(pieces[1..], tail);
    }
  }

  /** One piece under one `replace(p, '')` when the piece's colour is `p` itself: its text
      stays, the colour goes, and the rest of the line is cleaned on its own. */
  lemma PieceColourDeleted(t: string, rest: string, p: string)
    requires p != [] && p[0] !in t
    ensures RemoveAll(t + (p + rest), p) == t + RemoveAll(rest, p)
  {
    RemoveAllSkipsFree(t, p + rest, p);
    RemoveAllDropsLead(p, rest);
  }

  /** One piece under one `replace(p, '')` when the piece's colour `c` departs from `p`
      at position `j`: text and colour stay. */
  lemma PieceColourKept(t: string, c: string, rest: string, p: string, j: nat)
    requires p != [] && p[0] !in t && j < |c| && j < |p| && c[j] != p[j] && p[0] !in c[1..]
    ensures RemoveAll(t + (c + rest), p) == t + (c + RemoveAll(rest, p))
  {
    RemoveAllSkipsFree(t, c + rest, p);
    RemoveAllPassesOther(c, rest, p, j);
  }

  /** One `replace(colour, '')` over one piece: the text stays, the piece's colour goes
      exactly when it is the colour deleted, and the rest is cleaned on its own. */
  lemma PiecePass(t: string, m: ColourIndex, rest: string, shown: set<ColourIndex>, k: ColourIndex)
    requires Esc !in t
    ensures RemoveAll(t + (Shown(m, shown) + rest), Colours[k]) ==
            t + (Shown(m, shown - {k}) + RemoveAll(rest, Colours[k]))
  {
    ColourShape(k);
    if m !in shown {
      assert Shown(m, shown) + rest == rest;
      assert Shown(m, shown - {k}) + RemoveAll(rest, Colours[k]) == RemoveAll(rest, Colours[k]);
      RemoveAllSkipsFree(t, rest, Colours[k]);
    } else if m == k {
      assert Shown(m, shown) == Colours[k];
      assert Shown(m, shown - {k}) + RemoveAll(rest, Colours[k]) == RemoveAll(rest, Colours[k]);
      PieceColourDeleted(t, rest, Colours[k]);
    } else {
      assert Shown(m, shown) == Colours[m] && Shown(m, shown - {k}) == Colours[m];
      ColourShape(m);
      var j := ColoursDiverge(m, k);
      PieceColourKept(t, Colours[m], rest, Colours[k], j);
    }
  }

  /** One `replace(colour, '')` deletes exactly the occurrences of that colour between
      escape-free texts, and leaves the other colours in place. */
  lemma {:induction false} ColourPass(pieces: seq<(string, ColourIndex)>, tail: string, shown: set<ColourIndex>, k: ColourIndex)
    requires EscapeFree(pieces, tail)
    ensures RemoveAll(Coloured(pieces, tail, shown), Colours[k]) == Coloured(pieces, tail, shown - {k})
  {
    if pieces == [] {
      ColourShape(k);
      NoOccurrenceWithoutLead(tail, Colours[k]);
    } else {
      assert EscapeFree(pieces[1..], tail) by {
        forall i | 0 <= i < |pieces[1..]|
          ensures Esc !in pieces[1..][i].0
        {
          assert pieces[1..][i] == pieces[i + 1];
        }
      }
      ColourPass(pieces[1..], tail, shown, k);
      assert Esc !in pieces[0].0;
      PiecePass(pieces[0].0, pieces[0].1, Coloured(pieces[1..], tail, shown), shown, k);
    }
  }

  /** The cleaner deletes every colour sequence that separates escape-free texts,
      whatever their order, and keeps the texts. */
  lemma CleanLineRemovesColours(pieces: seq<(string, ColourIndex)>, tail: string)
    requires EscapeFree(pieces, tail)
    ensures CleanLine(Coloured(pieces, tail, {0, 1, 2, 3})) == PlainText(pieces, tail)
  {
    ColourPass(pieces, tail, {0, 1, 2, 3}, 0);
    assert {0, 1, 2, 3} - {0} == {1, 2, 3};
    ColourPass(pieces, tail, {1, 2, 3}, 1);
    assert {1, 2, 3} - {1} == {2, 3};
    ColourPass(pieces, tail, {2, 3}, 2);
    assert {2, 3} - {2} == {3};
    ColourPass(pieces, tail, {3}, 3);
    assert {3} - {3} == {};
    ColouredWithoutColours(pieces, tail);
  }

  /** The cleaned traceback, line by line. */
  function CleanedTraceback(traceback: seq<string>): seq<string> {
    seq(|traceback|, i requires 0 <= i < |traceback| => CleanLine(traceback[i]))
  }

  /** The loop of both servers that cleans a traceback line by line. */
  method CleanTraceback(traceback: seq<string>) returns (clean: seq<string>)
    ensures |clean| == |traceback|
    ensures forall i :: 0 <= i < |traceback| ==> clean[i] == CleanLine(traceback[i])
  {
    clean := [];
    for i := 0 to |traceback|
      invariant |clean| == i
      invariant forall k :: 0 <= k < i ==> clean[k] == CleanLine(traceback[k])
    {
      clean := clean + [CleanLine(traceback[i])];
    }
  }

  /** `"{ename}: {evalue}"`, followed by the cleaned traceback lines when there are any. */
  function ErrorText(ename: Option<string>, evalue: string, traceback: seq<string>): (r: string)
    ensures |r| >= |ename.GetOr("Error")| + 2 + |evalue|
    ensures r[..|ename.GetOr("Error")| + 2 + |evalue|] == ename.GetOr("Error") + ": " + evalue
    ensures traceback == [] <==> |r| == |ename.GetOr("Error")| + 2 + |evalue|
    ensures traceback != [] ==>
              r == ename.GetOr("Error") + ": " + evalue + "\n" + Join(CleanedTraceback(traceback), "\n")
  {
    var head := ename.GetOr("Error") + ": " + evalue;
    if traceback == [] then head
    else
      var r := head + "\n" + Join(CleanedTraceback(traceback), "\n");
      assert r[..|head|] == head;
      r
  }

  /** An error as it appears in a report: the cross mark, a space and the error text. */
  function ErrorFragment(ename: Option<string>, evalue: string, traceback: seq<string>): (r: string)
    ensures |r| > |CrossMark| + 1 && r[..|CrossMark| + 1] == CrossMark + " "
    ensures r[|CrossMark| + 1..] == ErrorText(ename, evalue, traceback)
  {
    CrossMark + " " + ErrorText(ename, evalue, traceback)
  }

  /** The text a stream message contributes: its text stripped, nothing when that is empty. */
  function StreamFragment(text: string): (r: seq<string>)
    ensures |r| <= 1
    ensures r == [] <==> forall i :: 0 <= i < |text| ==> IsSpace(text[i])
    ensures r != [] ==> r[0] != "" && !IsSpace(r[0][0]) && StrippedAt(text, r[0], LeadingSpaces(text))
  {
    var s := Strip(text);
    if s == "" then [] else [s]
  }

  /** The text an execute result contributes: its `text/plain` form when not empty. */
  function ResultFragment(plainText: string): (r: seq<string>)
    ensures r == [] <==> plainText == ""
    ensures forall f :: f in r ==> f == plainText
  {
    if plainText == "" then [] else [plainText]
  }

  /** The fragments one broadcast contributes to the arrival-ordered report of the session
      server: at most one, never an empty string; status and other messages contribute none. */
  function OutputFragment(c: Content): (r: seq<string>)
    ensures |r| <= 1
    ensures forall f :: f in r ==> f != ""
    ensures (c.Status? || c.Ignored?) ==> r == []
    ensures c.Stream? ==> r == StreamFragment(c.text)
    ensures c.ExecuteResult? ==> r == ResultFragment(c.plainText)
    ensures c.Error? ==> r == [ErrorFragment(c.ename, c.evalue, c.traceback)]
  {
    match c
    case Stream(text) => StreamFragment(text)
    case ExecuteResult(plain) => ResultFragment(plain)
    case Error(name, value, traceback) => [ErrorFragment(name, value, traceback)]
    case _ => []
  }
}
