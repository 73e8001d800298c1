/** Control characters, lines and delimited fields as Rust's `is_control`, `lines`, `split` and `join` define them. */
module DelimitedText {

  predicate IsControl(c: char) {
    c as int < 0x20 || 0x7F <= c as int < 0xA0
  }

  function IndexOf(s: string, c: char): (i: nat)
    ensures i <= |s| && (i < |s| ==> s[i] == c) && forall k :: 0 <= k < i ==> s[k] != c
  {
    if s == "" || s[0] == c then 0 else 1 + IndexOf(s[1..], c)
  }

  /** The parts between delimiters; at least one. */
  function Split(s: string, c: char): (parts: seq<string>)
    ensures |parts| > 0
  {
    var i := IndexOf(s, c);
    if i == |s| then [s] else [s[..i]] + Split(s[i + 1..], c)
  }

  function Join(parts: seq<string>, c: char): string
    requires |parts| > 0
  {
    if |parts| == 1 then parts[0] else parts[0] + [c] + Join(parts[1..], c)
  }

  ghost predicate Free(parts: seq<string>, c: char) {
    forall i :: 0 <= i < |parts| ==> c !in parts[i]
  }

  lemma JoinFirst(first: string, rest: seq<string>, c: char)
    requires |rest| > 0
    ensures Join([first] + rest, c) == first + [c] + Join(rest, c)
  {
    assert ([first] + rest)[1..] == rest;
  }

  lemma {:induction false} JoinOfSplit(s: string, c: char)
    ensures Join(Split(s, c), c) == s && Free(Split(s, c), c)
    decreases |s|
  {
    var i := IndexOf(s, c);
    if i < |s| {
      JoinOfSplit(s[i + 1..], c);
      JoinFirst(s[..i], Split(s[i + 1..], c), c);
      assert c !in s[..i] && s == s[..i] + [c] + s[i + 1..];
    } else {
      assert s[..i] == s;
    }
  }

  lemma IndexAfter(a: string, c: char, b: string)
    requires c !in a
    ensures IndexOf(a + [c] + b, c) == |a|
  {
    var s := a + [c] + b;
    assert s[|a|] == c && forall k :: 0 <= k < |a| ==> s[k] == a[k] != c;
  }

  lemma IndexNowhere(s: string, c: char)
    requires c !in s
    ensures IndexOf(s, c) == |s|
  {
  }

  lemma SplitFirst(a: string, c: char, b: string)
    requires c !in a
    ensures Split(a + [c] + b, c) == [a] + Split(b, c)
  {
    IndexAfter(a, c, b);
    var s := a + [c] + b;
    assert s[..|a|] == a && s[|a| + 1..] == b;
  }

  lemma {:induction false} SplitOfJoin(parts: seq<string>, c: char)
    requires |parts| > 0 && Free(parts, c)
    ensures Split(Join(parts, c), c) == parts
  {
    if |parts| == 1 {
      IndexNowhere(parts[0], c);
    } else {
      SplitFirst(parts[0], c, Join(parts[1..], c));
      SplitOfJoin(parts[1..], c);
    }
  }

  /** The characters from `i` up to `j` stand between delimiters or ends of the text, and hold no delimiter. */
  ghost predicate IsPart(s: string, c: char, i: nat, j: nat) {
    i <= j <= |s| && (i == 0 || s[i - 1] == c) && (j == |s| || s[j] == c) && forall k :: i <= k < j ==> s[k] != c
  }

  lemma FirstPart(a: string, c: char, rest: string, i: nat, j: nat)
    requires c !in a
    ensures var s := a + [c] + rest; IsPart(s, c, 0, |a|) && s[0..|a|] == a
    ensures IsPart(a + [c] + rest, c, i, j) && i <= |a| ==> i == 0 && j == |a|
  {
    var s := a + [c] + rest;
    assert s[|a|] == c && s[0..|a|] == a;
    assert forall k :: 0 <= k < |a| ==> s[k] == a[k];
  }

  lemma PartAfter(a: string, c: char, rest: string, i: nat, j: nat)
    requires i <= j <= |rest|
    ensures var s, n := a + [c] + rest, |a| + 1;
            s[n + i..n + j] == rest[i..j] && (IsPart(s, c, n + i, n + j) <==> IsPart(rest, c, i, j))
  {
    var s, n := a + [c] + rest, |a| + 1;
    assert s[n..] == rest;
    assert s[n + i..n + j] == s[n..][i..j];
    assert i > 0 ==> s[n + i - 1] == rest[i - 1];
  }

  lemma SolePart(s: string, c: char)
    requires c !in s
    ensures IsPart(s, c, 0, |s|) && s[0..|s|] == s
  {
  }

  lemma {:induction false} JoinedPart(parts: seq<string>, c: char, k: nat) returns (i: nat, j: nat)
    requires k < |parts| && Free(parts, c)
    ensures IsPart(Join(parts, c), c, i, j) && Join(parts, c)[i..j] == parts[k]
  {
    if |parts| == 1 {
      SolePart(parts[0], c);
      i, j := 0, |parts[0]|;
    } else if k == 0 {
      FirstPart(parts[0], c, Join(parts[1..], c), 0, 0);
      i, j := 0, |parts[0]|;
    } else {
      var rest := parts[1..];
      assert Free(rest, c) && rest[k - 1] == parts[k];
      var m, l := JoinedPart(rest, c, k - 1);
      PartAfter(parts[0], c, Join(rest, c), m, l);
      i, j := |parts[0]| + 1 + m, |parts[0]| + 1 + l;
    }
  }

  lemma {:induction false} PartIsJoined(parts: seq<string>, c: char, i: nat, j: nat) returns (k: nat)
    requires |parts| > 0 && Free(parts, c) && IsPart(Join(parts, c), c, i, j)
    ensures k < |parts| && parts[k] == Join(parts, c)[i..j]
  {
    k := 0;
    if |parts| > 1 {
      var rest, n := Join(parts[1..], c), |parts[0]| + 1;
      FirstPart(parts[0], c, rest, i, j);
      if i > 0 {
        PartAfter(parts[0], c, rest, i - n, j - n);
        var m := PartIsJoined(parts[1..], c, i - n, j - n);
        k := m + 1;
      }
    }
  }

  /** Splitting yields the stretches between delimiters and nothing else. */
  lemma SplitMeans(s: string, c: char, part: string)
    ensures part in Split(s, c) <==> exists i: nat, j: nat :: IsPart(s, c, i, j) && s[i..j] == part
  {
    var parts := Split(s, c);
    JoinOfSplit(s, c);
    if part in parts {
      var k :| 0 <= k < |parts| && parts[k] == part;
      var i, j := JoinedPart(parts, c, k);
    }
    forall i: nat, j: nat | IsPart(s, c, i, j) && s[i..j] == part
      ensures part in parts
    {
      var k := PartIsJoined(parts, c, i, j);
    }
  }

  // ----- Lines -----

  /** Without one trailing carriage return. */
  function StripCr(s: string): string {
    if s != "" && s[|s| - 1] == '\r' then s[..|s| - 1] else s
  }

  /** Ended by a newline, possibly after a carriage return; the last newline is optional. */
  function Lines(s: string): seq<string> {
    if s == "" then []
    else
      var i := IndexOf(s, '\n');
      if i == |s| then [s] else [StripCr(s[..i])] + Lines(s[i + 1..])
  }

  function Unlines(lines: seq<string>): string {
    if lines == [] then "" else lines[0] + "\n" + Unlines(lines[1..])
  }

  lemma {:induction false} LinesAreFree(s: string)
    ensures Free(Lines(s), '\n')
    decreases |s|
  {
    if s != "" {
      var i := IndexOf(s, '\n');
      if i < |s| {
        LinesAreFree(s[i + 1..]);
        assert '\n' !in s[..i];
        assert '\n' !in StripCr(s[..i]);
      } else {
        assert '\n' !in s;
      }
    }
  }

  lemma {:induction false} UnlinesAppend(lines: seq<string>, line: string)
    ensures Unlines(lines + [line]) == Unlines(lines) + line + "\n"
  {
    if lines == [] {
      assert [line][1..] == [];
    } else {
      UnlinesAppend(lines[1..], line);
      assert (lines + [line])[1..] == lines[1..] + [line];
    }
  }

  /** Reading written lines back loses one trailing carriage return of each. */
  lemma {:induction false} LinesOfUnlines(lines: seq<string>)
    requires Free(lines, '\n')
    ensures |Lines(Unlines(lines))| == |lines|
    ensures forall i :: 0 <= i < |lines| ==> Lines(Unlines(lines))[i] == StripCr(lines[i])
  {
    if lines != [] {
      var rest := Unlines(lines[1..]);
      IndexAfter(lines[0], '\n', rest);
      var s := lines[0] + "\n" + rest;
      assert s[..|lines[0]|] == lines[0] && s[|lines[0]| + 1..] == rest;
      LinesOfUnlines(lines[1..]);
    }
  }

  lemma StripOfTail(first: string, tail: string)
    ensures StripCr(first + ":" + tail) == first + ":" + StripCr(tail)
  {
    var s := first + ":" + tail;
    assert tail != "" ==> s[|s| - 1] == tail[|tail| - 1];
  }

  /** A trailing carriage return belongs to the last part. */
  lemma {:induction false} StripOfJoin(parts: seq<string>)
    requires |parts| > 0
    ensures StripCr(Join(parts, ':')) == Join(parts[|parts| - 1 := StripCr(parts[|parts| - 1])], ':')
  {
    if |parts| > 1 {
      var last := |parts| - 1;
      var stripped := parts[last := StripCr(parts[last])];
      StripOfJoin(parts[1..]);
      assert stripped[1..] == parts[1..][last - 1 := StripCr(parts[last])];
      StripOfTail(parts[0], Join(parts[1..], ':'));
    }
  }
}
