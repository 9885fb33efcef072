/**
 * The configuration reader `goReadFile` (main.go:1456-1480): the text of
 * config.ini is normalised and split into lines, and every line of the form
 * `key = value` is stored into `ConfigMap`. Keys that a later reload no
 * longer mentions keep their old values.
 */
module Config {
  import opened Wrappers
  import opened Text

  /**
   * The lines as main.go:1464 computes them: CRLF turned into LF, then
   * leading and trailing newlines, tabs and spaces trimmed (in that order),
   * then a split on LF.
   */
  function ConfigLines(text: string): (lines: seq<string>)
    ensures |lines| >= 1
    ensures forall i :: 0 <= i < |lines| ==> '\n' !in lines[i]
    ensures Join(lines, '\n') == Trim(Trim(Trim(ReplaceCrlf(text), '\n'), '\t'), ' ')
  {
    var normalised := Trim(Trim(Trim(ReplaceCrlf(text), '\n'), '\t'), ' ');
    JoinSplit(normalised, '\n');
    Split(normalised, '\n')
  }

  /** The configuration after storing the `key = value` lines in order; other lines are skipped. */
  function ApplyLines(config: map<string, string>, lines: seq<string>): (r: map<string, string>)
    ensures config.Keys <= r.Keys
    decreases |lines|
  {
    if lines == [] then config
    else
      var c := ApplyLines(config, lines[..|lines| - 1]);
      match SplitAssign(lines[|lines| - 1])
      case None => c
      case Some((k, v)) => c[k := v]
  }

  /** The loop step of a reload: line `i` applied after the lines before it. */
  lemma ApplyOneMore(config: map<string, string>, lines: seq<string>, i: nat)
    requires i < |lines|
    ensures ApplyLines(config, lines[..i + 1]) ==
      match SplitAssign(lines[i])
      case None => ApplyLines(config, lines[..i])
      case Some((k, v)) => ApplyLines(config, lines[..i])[k := v]
  {
    assert lines[..i + 1][..i] == lines[..i];
  }

  /** A final line `key = value` sets `key` to `value`. */
  lemma LastAssignmentWins(config: map<string, string>, lines: seq<string>, key: string, value: string)
    requires '=' !in key
    ensures var r := ApplyLines(config, lines + [key + Assign + value]);
      key in r && r[key] == value
  {
    SplitAssignRoundTrip(key, value);
    var all := lines + [key + Assign + value];
    assert all[..|all| - 1] == lines;
  }

  /**
   * The value of a key after a reload is the one of the last line that
   * assigns it: line `i` sets `key` to `value` and no later line sets `key`.
   */
  lemma {:induction false} LastAssignmentAt(config: map<string, string>, lines: seq<string>, i: nat, key: string, value: string)
    requires LastAssigns(lines, i, key, value)
    ensures key in ApplyLines(config, lines) && ApplyLines(config, lines)[key] == value
    decreases |lines|
  {
    var init := lines[..|lines| - 1];
    if i < |lines| - 1 {
      assert forall j :: i < j < |init| ==> init[j] == lines[j];
      LastAssignmentAt(config, init, i, key, value);
    }
  }

  /** A reload keeps the value of every key that none of its lines assigns. */
  lemma {:induction false} UnassignedKeyKept(config: map<string, string>, lines: seq<string>, key: string)
    requires key in config
    requires forall i :: 0 <= i < |lines| && SplitAssign(lines[i]).Some? ==> SplitAssign(lines[i]).value.0 != key
    ensures key in ApplyLines(config, lines) && ApplyLines(config, lines)[key] == config[key]
    decreases |lines|
  {
    if lines != [] {
      var init := lines[..|lines| - 1];
      assert forall i :: 0 <= i < |init| ==> init[i] == lines[i];
      UnassignedKeyKept(config, init, key);
    }
  }

  /** The lines of a file written with CRLF line ends. */
  function JoinCrlf(lines: seq<string>): string
    requires |lines| >= 1
  {
    if |lines| == 1 then lines[0] else lines[0] + "\r\n" + JoinCrlf(lines[1..])
  }

  lemma {:induction false} ReplaceCrlfSkips(a: string, b: string)
    requires '\r' !in a
    ensures ReplaceCrlf(a + b) == a + ReplaceCrlf(b)
    decreases |a|
  {
    if a != [] {
      var s := a + b;
      assert s[0] == a[0] && a[0] in a && s[1..] == a[1..] + b;
      assert ReplaceCrlf(s) == [a[0]] + ReplaceCrlf(a[1..] + b);
      ReplaceCrlfSkips(a[1..], b);
      assert [a[0]] + a[1..] == a;
    } else {
      assert a + b == b;
    }
  }

  /** A file saved with CRLF line ends reads like the same file with LF line ends. */
  lemma {:induction false} CrlfReadsLikeLf(lines: seq<string>)
    requires |lines| >= 1
    requires forall i :: 0 <= i < |lines| ==> '\r' !in lines[i]
    ensures ReplaceCrlf(JoinCrlf(lines)) == Join(lines, '\n')
    decreases |lines|
  {
    if |lines| > 1 {
      var tail := JoinCrlf(lines[1..]);
      CrlfReadsLikeLf(lines[1..]);
      var crlf := "\r\n" + tail;
      assert crlf[0] == '\r' && crlf[1] == '\n' && crlf[2..] == tail;
      assert JoinCrlf(lines) == lines[0] + crlf;
      ReplaceCrlfSkips(lines[0], crlf);
    }
  }

  lemma {:induction false} JoinWithout(pieces: seq<string>, sep: char, c: char)
    requires |pieces| >= 1 && sep != c
    requires forall i :: 0 <= i < |pieces| ==> c !in pieces[i]
    ensures c !in Join(pieces, sep)
    decreases |pieces|
  {
    if |pieces| > 1 {
      JoinWithout(pieces[1..], sep, c);
    }
  }

  /** Hence the configuration lines of both files are the same. */
  lemma CrlfConfigLines(lines: seq<string>)
    requires |lines| >= 1
    requires forall i :: 0 <= i < |lines| ==> '\r' !in lines[i]
    ensures ConfigLines(JoinCrlf(lines)) == ConfigLines(Join(lines, '\n'))
  {
    CrlfReadsLikeLf(lines);
    assert '\r' !in Join(lines, '\n') by {
      JoinWithout(lines, '\n', '\r');
    }
  }

  /** `ConfigMap`, updated in place by every reload. */
  class ConfigStore {
    var entries: map<string, string>

    constructor ()
      ensures entries == map[]
    {
      entries := map[];
    }

    /** `ConfigMap.Load(key)`. */
    function Get(key: string): (r: Option<string>)
      reads this
      ensures r.Some? <==> key in entries
      ensures r.Some? ==> r.value == entries[key]
    {
      if key in entries then Some(entries[key]) else None
    }

    /**
     * One read of config.ini with contents `text`. Fewer than two lines is
     * the "config.ini read error" panic (`ok` false, nothing stored).
     */
    method Reload(text: string) returns (ok: bool)
      modifies this
      ensures ok <==> |ConfigLines(text)| >= 2
      ensures entries == if ok then ApplyLines(old(entries), ConfigLines(text)) else old(entries)
    {
      var lines := ConfigLines(text);
      if |lines| < 2 {
        return false;
      }
      StoreLines(lines);
      return true;
    }

    /** The loop of main.go:1469-1476: store every `key = value` line in order. */
    method StoreLines(lines: seq<string>)
      modifies this
      ensures entries == ApplyLines(old(entries), lines)
    {
      ghost var entries0 := entries;
      var i := 0;
      while i < |lines|
        invariant 0 <= i <= |lines|
        invariant entries == ApplyLines(entries0, lines[..i])
      {
        var kv := SplitAssign(lines[i]);
        ApplyOneMore(entries0, lines, i);
        if kv.Some? {
          entries := entries[kv.value.0 := kv.value.1];
        }
        i := i + 1;
      }
      assert lines[..|lines|] == lines;
    }
  }

  /** A key that is neither configured before nor assigned by any line stays absent. */
  lemma {:induction false} UnassignedKeyAbsent(config: map<string, string>, lines: seq<string>, key: string)
    requires key !in config && Unassigned(lines, key)
    ensures key !in ApplyLines(config, lines)
    decreases |lines|
  {
    if lines != [] {
      var init := lines[..|lines| - 1];
      assert forall i :: 0 <= i < |init| ==> init[i] == lines[i];
      UnassignedKeyAbsent(config, init, key);
      assert SplitAssign(lines[|lines| - 1]).Some? ==> SplitAssign(lines[|lines| - 1]).value.0 != key;
    }
  }

  /** Line `i` of `lines` sets `key` to `value`, and no later line assigns `key`. */
  predicate LastAssigns(lines: seq<string>, i: nat, key: string, value: string)
  {
    && i < |lines| && SplitAssign(lines[i]) == Some((key, value))
    && forall j :: i < j < |lines| && SplitAssign(lines[j]).Some? ==> SplitAssign(lines[j]).value.0 != key
  }

  /** No line of `lines` assigns `key`. */
  predicate Unassigned(lines: seq<string>, key: string)
  {
    forall i :: 0 <= i < |lines| && SplitAssign(lines[i]).Some? ==> SplitAssign(lines[i]).value.0 != key
  }

  /**
   * Reload then lookup: once a reload has stored `lines`, `ConfigMap.Load(key)`
   * finds the value of the last line assigning `key`, or the value from before
   * the reload when no line assigns it (and nothing when it had none).
   */
  lemma GetAfterReload(store: ConfigStore, config: map<string, string>, lines: seq<string>, key: string)
    requires store.entries == ApplyLines(config, lines)
    ensures forall i: nat, value :: LastAssigns(lines, i, key, value) ==> store.Get(key) == Some(value)
    ensures Unassigned(lines, key) && key in config ==> store.Get(key) == Some(config[key])
    ensures Unassigned(lines, key) && key !in config ==> store.Get(key).None?
  {
    forall i: nat, value | LastAssigns(lines, i, key, value)
      ensures store.Get(key) == Some(value)
    {
      LastAssignmentAt(config, lines, i, key, value);
    }
    if Unassigned(lines, key) && key in config {
      UnassignedKeyKept(config, lines, key);
    }
    if Unassigned(lines, key) && key !in config {
      UnassignedKeyAbsent(config, lines, key);
    }
  }
}
