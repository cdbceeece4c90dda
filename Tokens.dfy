/**
 * The command line is split with Java's `String.split(" ")`: the pieces between single
 * spaces, with every trailing empty piece removed, except that a line without any space is
 * returned whole (so the empty line gives one empty token).
 */
module Tokens {

  predicate AllSpaces(s: string) {
    forall i :: 0 <= i < |s| ==> s[i] == ' '
  }

  /** Every piece of `s` between single spaces, empty pieces included. */
  function Fields(s: string): (r: seq<string>)
    ensures |r| >= 1
    ensures forall k :: 0 <= k < |r| ==> ' ' !in r[k]
    decreases |s|
  {
    if s == [] then [""]
    else
      var rest := Fields(s[1..]);
      if s[0] == ' ' then [""] + rest
      else [[s[0]] + rest[0]] + rest[1..]
  }

  /** The longest prefix of `ts` that does not end in an empty string. */
  function DropTrailingEmpty(ts: seq<string>): (r: seq<string>)
    ensures r <= ts
    ensures r == [] || r[|r| - 1] != ""
    ensures forall k :: |r| <= k < |ts| ==> ts[k] == ""
  {
    if ts == [] || ts[|ts| - 1] != "" then ts
    else DropTrailingEmpty(ts[..|ts| - 1])
  }

  /** `line.split(" ")`. */
  function Split(line: string): seq<string> {
    if ' ' !in line then [line] else DropTrailingEmpty(Fields(line))
  }

  /** The tokens put back together with single spaces. */
  function Join(ts: seq<string>): string {
    if ts == [] then ""
    else if |ts| == 1 then ts[0]
    else ts[0] + " " + Join(ts[1..])
  }

  /** Splitting into fields loses nothing: joining them gives the line back. */
  lemma {:induction false} JoinFields(s: string)
    ensures Join(Fields(s)) == s
  {
    if s != [] {
      var rest := Fields(s[1..]);
      JoinFields(s[1..]);
      if s[0] == ' ' {
        assert ([""] + rest)[1..] == rest;
      } else if |rest| > 1 {
        assert ([[s[0]] + rest[0]] + rest[1..])[1..] == rest[1..];
      }
    }
  }

  /** Joining splits around an inner boundary. */
  lemma {:induction false} JoinAt(ts: seq<string>, n: nat)
    requires 0 < n < |ts|
    ensures Join(ts) == Join(ts[..n]) + " " + Join(ts[n..])
  {
    if n > 1 {
      JoinAt(ts[1..], n - 1);
      assert ts[1..][..n - 1] == ts[..n][1..];
      assert ts[1..][n - 1..] == ts[n..];
    }
  }

  predicate AllEmpty(ts: seq<string>) {
    forall k :: 0 <= k < |ts| ==> ts[k] == ""
  }

  /** Empty tokens join to spaces only. */
  lemma {:induction false} JoinEmpties(ts: seq<string>)
    requires AllEmpty(ts)
    ensures AllSpaces(Join(ts))
  {
    if |ts| > 1 {
      JoinEmpties(ts[1..]);
    }
  }

  lemma SpacesAfterSpace(s: string)
    requires s != [] && s[0] == ' '
    ensures AllSpaces(s) <==> AllSpaces(s[1..])
  {
    if AllSpaces(s[1..]) {
      forall i | 0 <= i < |s| ensures s[i] == ' ' {
        if i > 0 { assert s[i] == s[1..][i - 1]; }
      }
    }
  }

  /** The fields are all empty exactly when the text is all spaces. */
  lemma {:induction false} FieldsEmptyIff(s: string)
    ensures AllEmpty(Fields(s)) <==> AllSpaces(s)
  {
    if s != [] {
      FieldsEmptyIff(s[1..]);
      var rest := Fields(s[1..]);
      if s[0] == ' ' {
        SpacesAfterSpace(s);
        assert Fields(s) == [""] + rest;
        var fs := [""] + rest;
        if AllEmpty(rest) {
          forall k | 0 <= k < |fs| ensures fs[k] == "" { if k > 0 { assert fs[k] == rest[k - 1]; } }
        }
        if AllEmpty(fs) {
          forall k | 0 <= k < |rest| ensures rest[k] == "" { assert rest[k] == fs[k + 1]; }
        }
      } else {
        assert Fields(s)[0] != "";
      }
    }
  }

  /** Splitting a text with an inner space is splitting its two sides. */
  lemma {:induction false} FieldsAround(a: string, b: string)
    ensures Fields(a + " " + b) == Fields(a) + Fields(b)
    decreases |a|
  {
    var s := a + " " + b;
    if a == [] {
      assert s == [' '] + b;
      assert s[1..] == b;
    } else {
      assert s[1..] == a[1..] + " " + b;
      FieldsAround(a[1..], b);
      FieldsStep(s);
      if a[0] != ' ' {
        var fa, fb := Fields(a[1..]), Fields(b);
        assert Fields(s) == [[a[0]] + (fa + fb)[0]] + (fa + fb)[1..];
      } else {
        FieldsStep(a);
      }
    }
  }

  /** One unfolding of Fields, named so that the proofs above can invoke it. */
  lemma FieldsStep(s: string)
    requires s != []
    ensures s[0] == ' ' ==> Fields(s) == [""] + Fields(s[1..])
    ensures s[0] != ' ' ==> Fields(s) == [[s[0]] + Fields(s[1..])[0]] + Fields(s[1..])[1..]
  {
  }

  /** A text without spaces is a single field. */
  lemma {:induction false} FieldsOfWord(a: string)
    requires ' ' !in a
    ensures Fields(a) == [a]
  {
    if a != [] {
      assert ' ' !in a[1..] by {
        forall i | 0 <= i < |a[1..]| ensures a[1..][i] != ' ' { assert a[1..][i] == a[i + 1]; }
      }
      FieldsOfWord(a[1..]);
      assert [a[0]] + a[1..] == a;
    }
  }

  /** A line yields no token exactly when it is non-empty and made of spaces only. */
  lemma SplitEmptyIff(line: string)
    ensures Split(line) == [] <==> line != "" && AllSpaces(line)
  {
    FieldsEmptyIff(line);
    if ' ' in line {
      var fs := Fields(line);
      var r := DropTrailingEmpty(fs);
      if r != [] {
        assert fs[|r| - 1] == r[|r| - 1] != "";
        assert !AllEmpty(fs);
      } else {
        assert AllEmpty(fs);
      }
    } else if line != "" {
      assert line[0] in line;
    }
  }

  /** The trailing empty fields are what the line has left after the tokens: spaces. */
  lemma JoinDropped(fs: seq<string>, ts: seq<string>)
    requires ts <= fs && AllEmpty(fs[|ts|..])
    ensures Join(ts) <= Join(fs)
    ensures AllSpaces(Join(fs)[|Join(ts)|..])
  {
    JoinEmpties(fs[|ts|..]);
    if ts == [] {
      assert fs[|ts|..] == fs;
    } else if |ts| < |fs| {
      JoinAt(fs, |ts|);
      assert fs[..|ts|] == ts;
      var tail := " " + Join(fs[|ts|..]);
      assert Join(fs) == Join(ts) + tail;
      assert Join(fs)[|Join(ts)|..] == tail;
      assert AllSpaces(tail) by {
        forall i | 0 <= i < |tail| ensures tail[i] == ' ' {
          if i > 0 { assert tail[i] == Join(fs[|ts|..])[i - 1]; }
        }
      }
    } else {
      assert ts == fs;
    }
  }

  /**
   * The tokens give the line back: none contains a space, joined with single spaces they
   * form a prefix of the line, only spaces follow, and the last token is empty only for
   * the empty line.
   */
  lemma SplitRestoresLine(line: string)
    ensures forall k :: 0 <= k < |Split(line)| ==> ' ' !in Split(line)[k]
    ensures Join(Split(line)) <= line
    ensures AllSpaces(line[|Join(Split(line))|..])
    ensures |Split(line)| > 0 && line != "" ==> Split(line)[|Split(line)| - 1] != ""
  {
    if ' ' in line {
      var fs := Fields(line);
      var ts := DropTrailingEmpty(fs);
      JoinFields(line);
      assert AllEmpty(fs[|ts|..]) by {
        forall k | 0 <= k < |fs[|ts|..]| ensures fs[|ts|..][k] == "" { assert fs[|ts|..][k] == fs[|ts| + k]; }
      }
      JoinDropped(fs, ts);
      assert forall k :: 0 <= k < |ts| ==> ts[k] == fs[k];
    } else {
      assert line[|line|..] == [];
    }
  }

  predicate NoSpaces(ws: seq<string>) {
    forall k :: 0 <= k < |ws| ==> ' ' !in ws[k]
  }

  /** Words joined with single spaces split back into the same fields. */
  lemma {:induction false} FieldsJoin(ws: seq<string>)
    requires |ws| >= 1 && NoSpaces(ws)
    ensures Fields(Join(ws)) == ws
  {
    FieldsOfWord(ws[0]);
    if |ws| > 1 {
      FieldsJoin(ws[1..]);
      FieldsAround(ws[0], Join(ws[1..]));
      assert ws == [ws[0]] + ws[1..];
    }
  }

  /**
   * The other direction of the round trip: space-free words, the last one non-empty unless
   * it is the only one, are what their join splits into.
   */
  lemma SplitJoin(ws: seq<string>)
    requires |ws| >= 1 && NoSpaces(ws)
    requires |ws| == 1 || ws[|ws| - 1] != ""
    ensures Split(Join(ws)) == ws
  {
    if |ws| > 1 {
      FieldsJoin(ws);
      assert Join(ws)[|ws[0]|] == ' ';
    }
  }

  /**
   * A doubled space makes an empty token that takes an argument's place:
   * `op + "  " + a + " " + b` splits into four tokens, not three.
   */
  lemma DoubledSpaceMakesEmptyToken(op: string, a: string, b: string)
    requires ' ' !in op && ' ' !in a && ' ' !in b && b != ""
    ensures Split(op + "  " + a + " " + b) == [op, "", a, b]
  {
    var ws := [op, "", a, b];
    assert Join(ws[3..]) == b;
    assert Join(ws[2..]) == a + " " + b;
    assert Join(ws[1..]) == "" + " " + (a + " " + b);
    assert Join(ws) == op + "  " + a + " " + b;
    SplitJoin(ws);
  }
}
