/**
 * The few `strings` package operations the core uses, on byte strings:
 * `strings.Split` with a one-byte separator, `strings.Trim` with a one-byte
 * cutset, `strings.Replace(s, "\r\n", "\n", -1)` and `strings.SplitN(s, " = ", 2)`.
 */
module Text {
  import opened Wrappers

  /**
   * `strings.Split(s, string(sep))`: the pieces between separators, so that a
   * string with n separators gives n + 1 pieces (`Split("", sep) == [""]`).
   */
  function Split(s: string, sep: char): (r: seq<string>)
    ensures |r| >= 1
    ensures forall i :: 0 <= i < |r| ==> sep !in r[i]
  {
    if |s| == 0 then [""]
    else
      var rest := Split(s[1..], sep);
      if s[0] == sep then [""] + rest else [[s[0]] + rest[0]] + rest[1..]
  }

  /** `strings.Join(pieces, string(sep))`. */
  function Join(pieces: seq<string>, sep: char): string
    requires |pieces| >= 1
  {
    if |pieces| == 1 then pieces[0] else pieces[0] + [sep] + Join(pieces[1..], sep)
  }

  /** Joining the pieces back with the separator gives the original string. */
  lemma {:induction false} JoinSplit(s: string, sep: char)
    ensures Join(Split(s, sep), sep) == s
  {
    if |s| > 0 {
      var rest := Split(s[1..], sep);
      JoinSplit(s[1..], sep);
      if s[0] == sep {
        assert Split(s, sep) == [""] + rest;
        assert Join([""] + rest, sep) == "" + [sep] + Join(rest, sep);
        assert [sep] + s[1..] == s;
      } else if |rest| == 1 {
        assert Split(s, sep) == [[s[0]] + rest[0]];
        assert [s[0]] + s[1..] == s;
      } else {
        var r := Split(s, sep);
        assert r == [[s[0]] + rest[0]] + rest[1..];
        assert r[1..] == rest[1..];
        assert Join(r, sep) == [s[0]] + rest[0] + [sep] + Join(rest[1..], sep);
        assert Join(rest, sep) == rest[0] + [sep] + Join(rest[1..], sep);
        assert [s[0]] + s[1..] == s;
      }
    }
  }

  /** The first field of a text that has `body` before its first separator is `body`. */
  lemma FirstFieldOfConcat(body: string, rest: string, sep: char)
    requires sep !in body && |rest| > 0 && rest[0] == sep
    ensures FirstField(body + rest, sep) == body
  {
    var s := body + rest;
    assert forall i :: 0 <= i < |body| ==> s[i] == body[i];
    assert s[|body|] == sep;
  }

  /**
   * `strings.Split(s, string(sep))[0]`: the part of `s` before its first
   * separator, or all of `s` when there is none.
   */
  function FirstField(s: string, sep: char): (r: string)
    ensures |r| <= |s| && r == s[..|r|] && sep !in r
    ensures |r| < |s| ==> s[|r|] == sep
  {
    FirstFieldIsPrefix(s, sep);
    Split(s, sep)[0]
  }

  lemma {:induction false} FirstFieldIsPrefix(s: string, sep: char)
    ensures var r := Split(s, sep)[0];
      |r| <= |s| && r == s[..|r|] && (|r| < |s| ==> s[|r|] == sep)
  {
    if |s| > 0 && s[0] != sep {
      FirstFieldIsPrefix(s[1..], sep);
    }
  }

  function TrimLeft(s: string, c: char): (r: string)
    ensures |r| <= |s| && r == s[|s| - |r|..]
    ensures |r| > 0 ==> r[0] != c
    ensures forall k :: 0 <= k < |s| - |r| ==> s[k] == c
  {
    if |s| > 0 && s[0] == c then TrimLeft(s[1..], c) else s
  }

  function TrimRight(s: string, c: char): (r: string)
    ensures |r| <= |s| && r == s[..|r|]
    ensures |r| > 0 ==> r[|r| - 1] != c
    ensures forall k :: |r| <= k < |s| ==> s[k] == c
  {
    if |s| > 0 && s[|s| - 1] == c then TrimRight(s[..|s| - 1], c) else s
  }

  /** `r` is `s[i..j]`, and everything before `i` and from `j` on is `c`. */
  predicate TrimmedAt(s: string, r: string, c: char, i: nat, j: nat)
  {
    && i <= j <= |s| && r == s[i..j]
    && (forall k :: 0 <= k < i ==> s[k] == c)
    && (forall k :: j <= k < |s| ==> s[k] == c)
  }

  /** `strings.Trim(s, string(c))`: every leading and trailing `c` removed. */
  function Trim(s: string, c: char): (r: string)
    ensures |r| > 0 ==> r[0] != c && r[|r| - 1] != c
    ensures exists i: nat, j: nat :: TrimmedAt(s, r, c, i, j)
  {
    var l := TrimLeft(s, c);
    var r := TrimRight(l, c);
    TrimmedWitness(s, c, l, r);
    r
  }

  /** Cutting a run of `c` off the front of `s` gives `l`, and one off the back of `l` gives `r`. */
  lemma TrimmedWitness(s: string, c: char, l: string, r: string)
    requires |l| <= |s| && l == s[|s| - |l|..] && forall k :: 0 <= k < |s| - |l| ==> s[k] == c
    requires |r| <= |l| && r == l[..|r|] && forall k :: |r| <= k < |l| ==> l[k] == c
    ensures TrimmedAt(s, r, c, |s| - |l|, |s| - |l| + |r|)
  {
    var i, j := |s| - |l|, |s| - |l| + |r|;
    assert l == s[i..] && r == l[..|r|];
    assert s[i..j] == l[..|r|];
    forall k | j <= k < |s|
      ensures s[k] == c
    {
      assert s[k] == l[k - i];
    }
  }

  /** `strings.Replace(s, "\r\n", "\n", -1)`, scanning left to right. */
  function ReplaceCrlf(s: string): (r: string)
    ensures |r| <= |s|
    ensures '\r' !in s ==> r == s
  {
    if |s| >= 2 && s[0] == '\r' && s[1] == '\n' then "\n" + ReplaceCrlf(s[2..])
    else if |s| == 0 then ""
    else [s[0]] + ReplaceCrlf(s[1..])
  }

  /** The configuration separator `" = "`. */
  const Assign: string := " = "

  predicate AssignAt(s: string, i: nat)
  {
    i + 3 <= |s| && s[i..i + 3] == Assign
  }

  /** The first index at or after `from` where `" = "` starts, if any. */
  function FindAssign(s: string, from: nat): (r: Option<nat>)
    decreases |s| - from
    ensures r.Some? ==> from <= r.value && AssignAt(s, r.value)
    ensures r.Some? ==> forall j :: from <= j < r.value ==> !AssignAt(s, j)
    ensures r.None? ==> forall j :: from <= j ==> !AssignAt(s, j)
  {
    if from + 3 > |s| then None
    else if AssignAt(s, from) then Some(from)
    else FindAssign(s, from + 1)
  }

  /**
   * `strings.SplitN(line, " = ", 2)` when it yields two parts: the text before
   * the first `" = "` and everything after it. `None` when there is no separator.
   */
  function SplitAssign(line: string): (r: Option<(string, string)>)
    ensures r.Some? ==> line == r.value.0 + Assign + r.value.1
  {
    match FindAssign(line, 0)
    case None => None
    case Some(i) => Some((line[..i], line[i + 3..]))
  }

  /** The split is at the first `" = "`, and there is one exactly when the line contains `" = "`. */
  lemma SplitAssignSpec(line: string)
    ensures var r := SplitAssign(line);
      (r.Some? ==> line == r.value.0 + Assign + r.value.1) &&
      (r.Some? ==> forall j :: 0 <= j < |r.value.0| ==> !AssignAt(line, j)) &&
      (r.None? <==> forall j :: 0 <= j ==> !AssignAt(line, j))
  {
    match FindAssign(line, 0)
    case None =>
    case Some(i) =>
      assert line == line[..i] + Assign + line[i + 3..];
  }

  /** A key without '=' is recovered exactly from `key + " = " + value`. */
  lemma SplitAssignRoundTrip(key: string, value: string)
    requires '=' !in key
    ensures SplitAssign(key + Assign + value) == Some((key, value))
  {
    var line := key + Assign + value;
    SplitAssignSpec(line);
    assert AssignAt(line, |key|);
    forall j | 0 <= j < |key|
      ensures !AssignAt(line, j)
    {
      assert line[j + 1] != '=' by {
        if j + 1 < |key| {
          assert line[j + 1] == key[j + 1];
        } else {
          assert line[j + 1] == Assign[0];
        }
      }
      assert j + 3 <= |line| ==> line[j..j + 3][1] == line[j + 1];
    }
  }
}
