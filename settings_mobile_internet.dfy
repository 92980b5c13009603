/**
 * The text processing of the RED Brick's mobile-internet helper script:
 * the REFRESH action's lsusb and umtskeeper-configuration parsers, the
 * resolv.conf nameserver rule, the CONNECT action's test command and
 * configuration builder, and the exit codes of the CONNECT action.
 *
 * Processes, files and systemd are inputs and outputs: an exit status or a
 * file's content is a parameter, and the commands the script would run are
 * returned as a list of `Step`s. Strings are Python 2 byte strings; their
 * methods (`strip`, `split`, `startswith`, `splitlines`, `readlines`) are
 * modelled below with Python's semantics for the arguments the script uses.
 */
module SettingsMobileInternet {
  import opened Wrappers

  // ---------------------------------------------------------------------
  // Python string methods

  /** The characters `str.strip()` removes from a byte string. */
  predicate IsSpace(c: char)
  {
    c == ' ' || c == '\t' || c == '\n' || c == '\r' || c == '\U{0B}' || c == '\U{0C}'
  }

  predicate AllSpace(s: string)
  {
    forall k :: 0 <= k < |s| ==> IsSpace(s[k])
  }

  function LStrip(s: string): (r: string)
    ensures |r| <= |s| && r == s[|s| - |r|..]
    ensures |r| > 0 ==> !IsSpace(r[0])
    ensures AllSpace(s[..|s| - |r|])
  {
    if |s| > 0 && IsSpace(s[0]) then LStrip(s[1..]) else s
  }

  function RStrip(s: string): (r: string)
    ensures |r| <= |s| && r == s[..|r|]
    ensures |r| > 0 ==> !IsSpace(r[|r| - 1])
    ensures AllSpace(s[|r|..])
  {
    if |s| > 0 && IsSpace(s[|s| - 1]) then RStrip(s[..|s| - 1]) else s
  }

  /** `s.strip()`. */
  function Strip(s: string): (r: string)
    ensures |r| > 0 ==> !IsSpace(r[0]) && !IsSpace(r[|r| - 1])
    ensures forall c :: c in r ==> c in s
  {
    var l := LStrip(s);
    assert forall c :: c in l ==> c in s;
    RStrip(l)
  }

  /** A string without surrounding white space is left alone by `strip`. */
  predicate Stripped(s: string)
  {
    |s| == 0 || (!IsSpace(s[0]) && !IsSpace(s[|s| - 1]))
  }

  lemma StripStripped(s: string)
    requires Stripped(s)
    ensures Strip(s) == s
  {
  }

  lemma {:induction false} LStripSpaces(pre: string, x: string)
    requires AllSpace(pre) && (|x| == 0 || !IsSpace(x[0]))
    ensures LStrip(pre + x) == x
    decreases |pre|
  {
    if |pre| > 0 {
      assert (pre + x)[1..] == pre[1..] + x;
      LStripSpaces(pre[1..], x);
    } else {
      assert pre + x == x;
    }
  }

  lemma {:induction false} RStripSpaces(x: string, post: string)
    requires AllSpace(post) && (|x| == 0 || !IsSpace(x[|x| - 1]))
    ensures RStrip(x + post) == x
    decreases |post|
  {
    if |post| > 0 {
      var last := |post| - 1;
      assert (x + post)[..|x + post| - 1] == x + post[..last];
      RStripSpaces(x, post[..last]);
    } else {
      assert x + post == x;
    }
  }

  /** `strip` removes exactly the white space around a stripped core. */
  lemma StripAround(pre: string, s: string, post: string)
    requires AllSpace(pre) && AllSpace(post) && |s| > 0 && Stripped(s)
    ensures Strip(pre + s + post) == s
  {
    assert pre + s + post == pre + (s + post);
    LStripSpaces(pre, s + post);
    RStripSpaces(s, post);
  }

  predicate OccursAt(s: string, sub: string, k: nat)
  {
    k + |sub| <= |s| && s[k..k + |sub|] == sub
  }

  function IndexFrom(s: string, sub: string, k: nat): (r: Option<nat>)
    requires k <= |s|
    ensures r.Some? ==> k <= r.value && OccursAt(s, sub, r.value) && forall j :: k <= j < r.value ==> !OccursAt(s, sub, j)
    ensures r.None? ==> forall j :: k <= j <= |s| ==> !OccursAt(s, sub, j)
    decreases |s| - k
  {
    if OccursAt(s, sub, k) then Some(k)
    else if k == |s| then None
    else IndexFrom(s, sub, k + 1)
  }

  /** `s.find(sub)`, as an option: the first position where `sub` occurs. */
  function IndexOf(s: string, sub: string): (r: Option<nat>)
    ensures r.Some? ==> OccursAt(s, sub, r.value) && forall j :: 0 <= j < r.value ==> !OccursAt(s, sub, j)
    ensures r.None? ==> forall j :: 0 <= j <= |s| ==> !OccursAt(s, sub, j)
  {
    IndexFrom(s, sub, 0)
  }

  /** `sub in s`. */
  predicate Contains(s: string, sub: string)
  {
    IndexOf(s, sub).Some?
  }

  /** `s.startswith(prefix)`. */
  predicate StartsWith(s: string, prefix: string)
  {
    |prefix| <= |s| && s[..|prefix|] == prefix
  }

  /** `s.split(sep, 1)`. */
  function Split1(s: string, sep: string): (r: seq<string>)
    requires |sep| > 0
    ensures 1 <= |r| <= 2
    ensures |r| == 2 ==> s == r[0] + sep + r[1]
  {
    match IndexOf(s, sep)
    case None => [s]
    case Some(i) =>
      assert s == s[..i] + sep + s[i + |sep|..];
      [s[..i], s[i + |sep|..]]
  }

  /** `split(sep, 1)` splits iff `sep` occurs, and then at its first occurrence. */
  lemma Split1First(s: string, sep: string)
    requires |sep| > 0
    ensures |Split1(s, sep)| == 1 <==> !Contains(s, sep)
    ensures |Split1(s, sep)| == 2 ==> !Contains(Split1(s, sep)[0], sep)
  {
    match IndexOf(s, sep)
    case None =>
    case Some(i) =>
      forall j | 0 <= j <= i
        ensures !OccursAt(s[..i], sep, j)
      {
        if j + |sep| <= i {
          assert j < i;
          assert !OccursAt(s, sep, j);
          assert s[..i][j..j + |sep|] == s[j..j + |sep|];
        }
      }
  }

  /** The first occurrence of a single-character separator is right after a prefix free of it. */
  lemma IndexOfCharAfter(a: string, c: char, b: string)
    requires c !in a
    ensures IndexOf(a + [c] + b, [c]) == Some(|a|)
  {
    var s := a + [c] + b;
    assert s[|a|..|a| + 1] == [c];
    assert OccursAt(s, [c], |a|);
    forall j | 0 <= j < |a|
      ensures !OccursAt(s, [c], j)
    {
      assert s[j..j + 1] == [a[j]];
    }
  }

  lemma Split1At(s: string, sep: string, i: nat)
    requires |sep| > 0 && IndexOf(s, sep) == Some(i)
    ensures Split1(s, sep) == [s[..i], s[i + |sep|..]]
  {
  }

  lemma IndexOfPrefix(s: string, sub: string)
    requires StartsWith(s, sub)
    ensures IndexOf(s, sub) == Some(0)
  {
    assert OccursAt(s, sub, 0);
  }

  /** `s.split(c)` for a one-character separator: every field, empty ones included. */
  function SplitChar(s: string, c: char): (r: seq<string>)
    ensures |r| >= 1
    ensures forall k :: 0 <= k < |r| ==> c !in r[k]
    decreases |s|
  {
    if |s| == 0 then [""]
    else
      var rest := SplitChar(s[1..], c);
      if s[0] == c then [""] + rest
      else [[s[0]] + rest[0]] + rest[1..]
  }

  /** `c.join(fields)`. */
  function JoinChar(fields: seq<string>, c: char): string
    requires |fields| >= 1
    decreases |fields|
  {
    if |fields| == 1 then fields[0] else fields[0] + [c] + JoinChar(fields[1..], c)
  }

  /** Splitting undoes joining. */
  lemma {:induction false} SplitJoinFirst(field: string, c: char, s: string)
    requires c !in field
    ensures SplitChar(field + [c] + s, c) == [field] + SplitChar(s, c)
    ensures SplitChar(field, c) == [field]
    decreases |field|
  {
    if |field| > 0 {
      assert (field + [c] + s)[1..] == field[1..] + [c] + s;
      SplitJoinFirst(field[1..], c, s);
      assert [field[0]] + field[1..] == field;
    } else {
      assert field + [c] + s == [c] + s;
    }
  }

  /** Splitting a join of separator-free fields gives the fields back. */
  lemma {:induction false} SplitJoin(fields: seq<string>, c: char)
    requires |fields| >= 1 && forall k :: 0 <= k < |fields| ==> c !in fields[k]
    ensures SplitChar(JoinChar(fields, c), c) == fields
    decreases |fields|
  {
    SplitJoinFirst(fields[0], c, "");
    if |fields| > 1 {
      SplitJoin(fields[1..], c);
      SplitJoinFirst(fields[0], c, JoinChar(fields[1..], c));
    }
  }

  /** Joining what `split` returned gives the string back. */
  lemma {:induction false} JoinSplit(s: string, c: char)
    ensures JoinChar(SplitChar(s, c), c) == s
    decreases |s|
  {
    if |s| > 0 {
      JoinSplit(s[1..], c);
      var rest := SplitChar(s[1..], c);
      if s[0] != c && |rest| > 1 {
        assert ([[s[0]] + rest[0]] + rest[1..])[1..] == rest[1..];
      }
    }
  }

  /** `s.replace(c, '')`. */
  function RemoveChar(s: string, c: char): (r: string)
    ensures c !in r
    ensures forall d :: d != c ==> (d in r <==> d in s)
  {
    if |s| == 0 then ""
    else if s[0] == c then RemoveChar(s[1..], c)
    else [s[0]] + RemoveChar(s[1..], c)
  }

  lemma {:induction false} RemoveCharAbsent(s: string, c: char)
    requires c !in s
    ensures RemoveChar(s, c) == s
  {
    if |s| > 0 {
      RemoveCharAbsent(s[1..], c);
    }
  }

  lemma {:induction false} RemoveCharAppend(a: string, b: string, c: char)
    ensures RemoveChar(a + b, c) == RemoveChar(a, c) + RemoveChar(b, c)
  {
    if |a| > 0 {
      assert (a + b)[1..] == a[1..] + b;
      RemoveCharAppend(a[1..], b, c);
    } else {
      assert a + b == b;
    }
  }

  /** `s.replace(c, d)` for single characters. */
  function ReplaceChar(s: string, c: char, d: char): (r: string)
    ensures |r| == |s|
    ensures forall k :: 0 <= k < |s| ==> r[k] == if s[k] == c then d else s[k]
  {
    if |s| == 0 then "" else [if s[0] == c then d else s[0]] + ReplaceChar(s[1..], c, d)
  }

  /** `text.readlines()`: lines split after each newline, which they keep. */
  function ReadLines(text: string): (lines: seq<string>)
    ensures forall k :: 0 <= k < |lines| ==> |lines[k]| > 0
    decreases |text|
  {
    if |text| == 0 then []
    else
      match IndexOf(text, "\n")
      case None => [text]
      case Some(i) => [text[..i + 1]] + ReadLines(text[i + 1..])
  }

  /** A line ending in its only newline is read as one line. */
  lemma ReadLinesLine(line: string, rest: string)
    requires |line| > 0 && line[|line| - 1] == '\n' && '\n' !in line[..|line| - 1]
    ensures ReadLines(line + rest) == [line] + ReadLines(rest)
  {
    var i := |line| - 1;
    assert line == line[..i] + ['\n'];
    IndexOfCharAfter(line[..i], '\n', rest);
    assert line + rest == line[..i] + ['\n'] + rest;
    assert (line + rest)[..i + 1] == line;
    assert (line + rest)[i + 1..] == rest;
  }

  /** A character absent from the text is absent from each of its lines. */
  lemma {:induction false} ReadLinesWithout(text: string, c: char)
    requires c !in text
    ensures forall k :: 0 <= k < |ReadLines(text)| ==> c !in ReadLines(text)[k]
    decreases |text|
  {
    if |text| > 0 {
      match IndexOf(text, "\n")
      case None =>
      case Some(i) =>
        assert forall d :: d in text[..i + 1] ==> d in text;
        assert forall d :: d in text[i + 1..] ==> d in text;
        ReadLinesWithout(text[i + 1..], c);
    }
  }

  predicate IsLineBreak(c: char) { c == '\n' || c == '\r' }

  /** The position of the first line break at or after `k`, or `|s|`. */
  function LineEnd(s: string, k: nat): (e: nat)
    requires k <= |s|
    ensures k <= e <= |s| && (e < |s| ==> IsLineBreak(s[e]))
    ensures forall j :: k <= j < e ==> !IsLineBreak(s[j])
    decreases |s| - k
  {
    if k == |s| || IsLineBreak(s[k]) then k else LineEnd(s, k + 1)
  }

  /** `s.splitlines()` of a Python 2 byte string: breaks at `\n`, `\r` and `\r\n`. */
  function SplitLines(s: string): (lines: seq<string>)
    ensures forall k, j :: 0 <= k < |lines| && 0 <= j < |lines[k]| ==> !IsLineBreak(lines[k][j])
    ensures |lines| == 0 <==> |s| == 0
    decreases |s|
  {
    if |s| == 0 then []
    else
      var e := LineEnd(s, 0);
      if e == |s| then [s]
      else if s[e] == '\r' && e + 1 < |s| && s[e + 1] == '\n' then [s[..e]] + SplitLines(s[e + 2..])
      else [s[..e]] + SplitLines(s[e + 1..])
  }

  // ---------------------------------------------------------------------
  // REFRESH: the lsusb device list

  /** One entry of `modem_list`. */
  datatype Modem = Modem(vidPid: string, name: string, busDevice: string)

  /** The entry for the text after `" ID "`: the pair, then the name. */
  function ParseIdName(busDevice: string, idName: string): (r: Option<Modem>)
    ensures r.Some? ==> Stripped(r.value.vidPid) && Stripped(r.value.name) && r.value.busDevice == busDevice
  {
    var splitIdName := Split1(idName, " ");
    if |splitIdName| != 2 then None
    else
      var name := if splitIdName[1] == "" || splitIdName[1] == " " then Strip(splitIdName[0]) else Strip(splitIdName[1]);
      Some(Modem(Strip(splitIdName[0]), name, busDevice))
  }

  /**
   * The entry one line of `lsusb` output yields, or `None` when the loop
   * skips the line; its three fields carry no surrounding white space.
   */
  function ParseLsusbLine(line: string): (r: Option<Modem>)
    ensures r.Some? ==> Stripped(r.value.vidPid) && Stripped(r.value.name) && Stripped(r.value.busDevice)
  {
    var splitLine := Split1(line, ":");
    if |splitLine| != 2 then None
    else
      var busDevice := Strip(splitLine[0]);
      if !StartsWith(splitLine[1], " ID ") then None
      else
        var splitLine1 := Split1(splitLine[1], " ID ");
        if |splitLine1| != 2 then None
        else ParseIdName(busDevice, splitLine1[1])
  }

  /** The part of a line with a colon followed by `" ID "` that names the device. */
  lemma ParseLsusbLineAt(busDevice: string, idName: string)
    requires ':' !in busDevice
    ensures ParseLsusbLine(busDevice + ": ID " + idName) == ParseIdName(Strip(busDevice), idName)
  {
    var line := busDevice + ": ID " + idName;
    var rest := " ID " + idName;
    assert line == busDevice + [':'] + rest;
    IndexOfCharAfter(busDevice, ':', rest);
    Split1At(line, ":", |busDevice|);
    assert line[..|busDevice|] == busDevice && line[|busDevice| + 1..] == rest;
    IndexOfPrefix(rest, " ID ");
    Split1At(rest, " ID ", 0);
    assert rest[4..] == idName;
  }

  /** What one line adds to the list. */
  function Entry(line: string): (r: seq<Modem>)
    ensures |r| <= 1
  {
    match ParseLsusbLine(line)
    case None => []
    case Some(m) => [m]
  }

  /** The entries of `lines`, in order. */
  function ModemsOf(lines: seq<string>): (modems: seq<Modem>)
    ensures |modems| <= |lines|
  {
    if |lines| == 0 then []
    else
      ModemsOf(lines[..|lines| - 1]) + Entry(lines[|lines| - 1])
  }

  /** The list of a concatenated output is the concatenation of the lists, so each line contributes on its own. */
  lemma {:induction false} ModemsOfAppend(a: seq<string>, b: seq<string>)
    ensures ModemsOf(a + b) == ModemsOf(a) + ModemsOf(b)
    decreases |b|
  {
    if |b| == 0 {
      assert a + b == a;
    } else {
      var last := |b| - 1;
      assert (a + b)[..|a + b| - 1] == a + b[..last];
      assert (a + b)[|a + b| - 1] == b[last];
      ModemsOfAppend(a, b[..last]);
      ModemsOfLast(a + b);
      ModemsOfLast(b);
    }
  }

  /** Line `i` adds its entry after those of the lines before it. */
  lemma ModemsOfPrefix(lines: seq<string>, i: nat)
    requires i < |lines|
    ensures ModemsOf(lines[..i + 1]) == ModemsOf(lines[..i]) + Entry(lines[i])
  {
    assert lines[..i + 1][..i] == lines[..i];
    ModemsOfLast(lines[..i + 1]);
  }

  /** The last line adds its entry at the end. */
  lemma ModemsOfLast(lines: seq<string>)
    requires |lines| > 0
    ensures ModemsOf(lines) == ModemsOf(lines[..|lines| - 1]) + Entry(lines[|lines| - 1])
  {
  }

  /** A single line contributes its entry, or nothing when it is skipped. */
  lemma ModemsOfLine(line: string)
    ensures ModemsOf([line]) == if ParseLsusbLine(line).Some? then [ParseLsusbLine(line).value] else []
  {
    assert [line][..0] == [];
  }

  /** The loop of the REFRESH action that fills `list_modem`. */
  method ListModems(lines: seq<string>) returns (modems: seq<Modem>)
    ensures modems == ModemsOf(lines)
  {
    modems := [];
    var i := 0;
    while i < |lines|
      invariant 0 <= i <= |lines|
      invariant modems == ModemsOf(lines[..i])
    {
      ModemsOfPrefix(lines, i);
      // a line that does not parse is skipped (`continue`); one that does adds its modem
      modems := modems + Entry(lines[i]);
      i := i + 1;
    }
    assert lines[..|lines|] == lines;
  }

  /** A value printed without surrounding white space and without `c`. */
  predicate Token(s: string, c: char)
  {
    |s| > 0 && Stripped(s) && c !in s
  }

  /**
   * A line as lsusb prints it, `Bus 001 Device 002: ID 12d1:1506 Some Modem`,
   * yields its bus/device text, its vendor:product pair and its name.
   */
  lemma LsusbLineRoundTrip(busDevice: string, vidPid: string, name: string)
    requires Token(busDevice, ':') && Token(vidPid, ' ') && |name| > 0 && Stripped(name)
    ensures ParseLsusbLine(busDevice + ": ID " + vidPid + " " + name) == Some(Modem(vidPid, name, busDevice))
  {
    assert busDevice + ": ID " + vidPid + " " + name == busDevice + ": ID " + (vidPid + [' '] + name);
    ParseLsusbLineAt(busDevice, vidPid + [' '] + name);
    IndexOfCharAfter(vidPid, ' ', name);
    Split1At(vidPid + [' '] + name, " ", |vidPid|);
    assert (vidPid + [' '] + name)[..|vidPid|] == vidPid && (vidPid + [' '] + name)[|vidPid| + 1..] == name;
    assert name != " ";
    StripStripped(busDevice);
    StripStripped(vidPid);
    StripStripped(name);
  }

  /** A device without a description has no space after its pair, and the loop skips it. */
  lemma LsusbLineWithoutNameSkipped(busDevice: string, vidPid: string)
    requires ':' !in busDevice && ' ' !in vidPid
    ensures ParseLsusbLine(busDevice + ": ID " + vidPid) == None
  {
    ParseLsusbLineAt(busDevice, vidPid);
    forall j | 0 <= j <= |vidPid|
      ensures !OccursAt(vidPid, " ", j)
    {
      if j + 1 <= |vidPid| {
        assert vidPid[j..j + 1] == [vidPid[j]];
      }
    }
  }

  /** Only a trailing space after the pair makes the pair stand in for the name. */
  lemma LsusbLineBlankNameIsPair(busDevice: string, vidPid: string)
    requires Token(busDevice, ':') && Token(vidPid, ' ')
    ensures ParseLsusbLine(busDevice + ": ID " + vidPid + " ") == Some(Modem(vidPid, vidPid, busDevice))
  {
    assert busDevice + ": ID " + vidPid + " " == busDevice + ": ID " + (vidPid + [' '] + "");
    ParseLsusbLineAt(busDevice, vidPid + [' '] + "");
    IndexOfCharAfter(vidPid, ' ', "");
    Split1At(vidPid + [' '] + "", " ", |vidPid|);
    assert (vidPid + [' '] + "")[..|vidPid|] == vidPid && (vidPid + [' '] + "")[|vidPid| + 1..] == "";
    StripStripped(busDevice);
    StripStripped(vidPid);
  }

  /** A line that does not continue with " ID " after its first colon is skipped. */
  lemma LsusbLineNeedsId(line: string)
    requires IndexOf(line, ":").Some? && !StartsWith(line[IndexOf(line, ":").value + 1..], " ID ")
    ensures ParseLsusbLine(line) == None
  {
    Split1At(line, ":", IndexOf(line, ":").value);
  }

  // ---------------------------------------------------------------------
  // REFRESH: the umtskeeper configuration

  const TAG_CONFIG_SAKIS_OPERATORS := "conf['sakisOperators']"

  /** `dict_configuration`, the REFRESH action's answer; `None` is a key never set. */
  datatype Configuration = Configuration(
    modemList: Option<seq<Modem>>, modemConfigured: Option<string>, dial: Option<string>,
    apn: Option<string>, username: Option<string>, password: Option<string>, simCardPin: Option<string>)

  const EMPTY_CONFIGURATION := Configuration(None, None, None, None, None, None, None)

  /** A character `\w` matches in a byte-string pattern. */
  predicate IsWordChar(c: char)
  {
    'a' <= c <= 'z' || 'A' <= c <= 'Z' || '0' <= c <= '9' || c == '_'
  }

  function Lower(c: char): char
  {
    if 'A' <= c <= 'Z' then (c as int + 32) as char else c
  }

  /** `text[p + k..p + |word|]` equals `word[k..]` ignoring ASCII case. */
  predicate SameLettersFrom(text: string, p: nat, word: string, k: nat)
    requires p + |word| <= |text| && k <= |word|
    decreases |word| - k
  {
    k == |word| || (Lower(text[p + k]) == Lower(word[k]) && SameLettersFrom(text, p, word, k + 1))
  }

  /** `word` occurs at `p` between two word boundaries, ignoring case. */
  predicate WholeWordAt(text: string, word: string, p: nat)
  {
    p + |word| <= |text| && SameLettersFrom(text, p, word, 0) &&
    (p == 0 || !IsWordChar(text[p - 1])) &&
    (p + |word| == |text| || !IsWordChar(text[p + |word|]))
  }

  predicate SearchFrom(word: string, text: string, p: nat)
    decreases |text| - p
  {
    p + |word| <= |text| && (WholeWordAt(text, word, p) || SearchFrom(word, text, p + 1))
  }

  /** `find_whole_word(word)(text)` is truthy: the search for `\b(word)\b`, ignoring case, finds a match. */
  predicate FindWholeWord(word: string, text: string)
  {
    SearchFrom(word, text, 0)
  }

  lemma {:induction false} SameLettersFromAll(text: string, p: nat, word: string, k: nat)
    requires p + |word| <= |text| && k <= |word|
    ensures SameLettersFrom(text, p, word, k) <==> forall j :: k <= j < |word| ==> Lower(text[p + j]) == Lower(word[j])
    decreases |word| - k
  {
    if k < |word| {
      SameLettersFromAll(text, p, word, k + 1);
    }
  }

  lemma {:induction false} SearchFromAny(word: string, text: string, p: nat)
    ensures SearchFrom(word, text, p) <==> exists q :: p <= q && WholeWordAt(text, word, q)
    decreases |text| - p
  {
    if p + |word| <= |text| {
      SearchFromAny(word, text, p + 1);
      if !SearchFrom(word, text, p) {
        forall q | p <= q
          ensures !WholeWordAt(text, word, q)
        {
          if q == p {
          } else {
            assert p + 1 <= q;
          }
        }
      }
    }
  }

  /** Letter for letter up to case at `p`, with no word character on either side. */
  predicate MatchesWholeWord(text: string, word: string, p: nat)
  {
    p + |word| <= |text| &&
    (forall j :: 0 <= j < |word| ==> Lower(text[p + j]) == Lower(word[j])) &&
    (p == 0 || !IsWordChar(text[p - 1])) &&
    (p + |word| == |text| || !IsWordChar(text[p + |word|]))
  }

  /** The whole-word search finds `word` iff some position holds it as a whole word. */
  lemma FindWholeWordIff(word: string, text: string)
    ensures FindWholeWord(word, text) <==> exists p: nat :: MatchesWholeWord(text, word, p)
  {
    SearchFromAny(word, text, 0);
    forall p: nat | p + |word| <= |text|
      ensures WholeWordAt(text, word, p) <==> MatchesWholeWord(text, word, p)
    {
      SameLettersFromAll(text, p, word, 0);
    }
    if FindWholeWord(word, text) {
      var q: nat :| WholeWordAt(text, word, q);
      assert MatchesWholeWord(text, word, q);
    }
    if exists p: nat :: MatchesWholeWord(text, word, p) {
      var q: nat :| MatchesWholeWord(text, word, q);
      assert WholeWordAt(text, word, q);
    }
  }

  datatype Key = UsbModem | Dial | Apn | ApnUser | ApnPass | SimPin

  /** The tag a parameter name must hold to set the field of `k`. */
  function Tag(k: Key): string
  {
    match k
    case UsbModem => "USBMODEM"
    case Dial => "DIAL"
    case Apn => "APN"
    case ApnUser => "APN_USER"
    case ApnPass => "APN_PASS"
    case SimPin => "SIM_PIN"
  }

  /**
   * The branch of the key test chain a parameter name takes: the first tag
   * found as a whole word. A key is classed only under a tag it holds.
   */
  function ClassifyKey(key: string): (r: Option<Key>)
    ensures r.Some? ==> FindWholeWord(Tag(r.value), key)
  {
    if FindWholeWord("USBMODEM", key) then Some(UsbModem)
    else if FindWholeWord("DIAL", key) then Some(Dial)
    else if FindWholeWord("APN", key) then Some(Apn)
    else if FindWholeWord("APN_USER", key) then Some(ApnUser)
    else if FindWholeWord("APN_PASS", key) then Some(ApnPass)
    else if FindWholeWord("SIM_PIN", key) then Some(SimPin)
    else None
  }

  /** A key is left unclassed exactly when it holds none of the six tags as a whole word. */
  lemma UnclassedIffNoTag(key: string)
    ensures ClassifyKey(key).None? <==> forall k: Key :: !FindWholeWord(Tag(k), key)
  {
  }

  /** `APN` is tested before `APN_USER` and `APN_PASS` but does not match them: `_` is a word character. */
  lemma ApnDoesNotShadowApnUser()
    ensures !FindWholeWord("APN", "APN_USER") && !FindWholeWord("APN", "APN_PASS")
    ensures ClassifyKey("APN_USER") == Some(ApnUser) && ClassifyKey("APN_PASS") == Some(ApnPass)
  {
  }

  /** Keys match regardless of case. */
  lemma KeysIgnoreCase()
    ensures ClassifyKey("apn_user") == Some(ApnUser) && ClassifyKey("Sim_Pin") == Some(SimPin)
  {
  }

  lemma KeysOfTheWrittenLineSim()
    ensures ClassifyKey("\"SIM_PIN") == Some(SimPin)
  {
  }

  lemma KeysOfTheWrittenLineDial()
    ensures ClassifyKey("\"DIAL") == Some(Dial) && ClassifyKey("DIAL") == Some(Dial)
  {
  }

  lemma KeysOfTheWrittenLineRest()
    ensures ClassifyKey("APN") == Some(Apn) && ClassifyKey("OTHER") == None && ClassifyKey("USBMODEM") == Some(UsbModem)
  {
  }

  /** A value as stored: stripped, then without any single or double quote. */
  function CleanValue(v: string): (r: string)
    ensures '\'' !in r && '"' !in r
  {
    RemoveChar(RemoveChar(Strip(v), '\''), '"')
  }

  function Assign(conf: Configuration, k: Key, v: string): (r: Configuration)
    ensures '\'' !in v && '"' !in v ==> CleanlyUpdated(conf, r)
  {
    match k
    case UsbModem => conf.(modemConfigured := Some(v))
    case Dial => conf.(dial := Some(v))
    case Apn => conf.(apn := Some(v))
    case ApnUser => conf.(username := Some(v))
    case ApnPass => conf.(password := Some(v))
    case SimPin => conf.(simCardPin := Some(v))
  }

  /** A field read from the file is kept, or set to a value without quotes. */
  predicate CleanUpdate(before: Option<string>, after: Option<string>)
  {
    after == before || (after.Some? && '\'' !in after.value && '"' !in after.value)
  }

  /**
   * `after` is `before` with some of the configured fields set to values
   * without quotes; the modem list is never touched.
   */
  predicate CleanlyUpdated(before: Configuration, after: Configuration)
  {
    after.modemList == before.modemList &&
    CleanUpdate(before.modemConfigured, after.modemConfigured) && CleanUpdate(before.dial, after.dial) &&
    CleanUpdate(before.apn, after.apn) && CleanUpdate(before.username, after.username) &&
    CleanUpdate(before.password, after.password) && CleanUpdate(before.simCardPin, after.simCardPin)
  }

  /** One `raw_param`: only `name=value` with exactly one `=` is considered. */
  function ApplyParam(conf: Configuration, rawParam: string): (r: Configuration)
    ensures CleanlyUpdated(conf, r)
  {
    var parts := SplitChar(rawParam, '=');
    if |parts| != 2 then conf
    else
      match ClassifyKey(parts[0])
      case None => conf
      case Some(k) => Assign(conf, k, CleanValue(parts[1]))
  }

  /** The parameters of one tagged line, in order: each sets a field to a value without quotes. */
  function ApplyParams(conf: Configuration, params: seq<string>): (r: Configuration)
    ensures CleanlyUpdated(conf, r)
  {
    if |params| == 0 then conf
    else ApplyParam(ApplyParams(conf, params[..|params| - 1]), params[|params| - 1])
  }

  /** One line of the configuration file; lines without the `sakisOperators` tag are skipped. */
  function ApplyLine(conf: Configuration, line: string): (r: Configuration)
    ensures CleanlyUpdated(conf, r)
  {
    if !Contains(line, TAG_CONFIG_SAKIS_OPERATORS) then conf
    else
      var splittedLine := Split1(line, "=");
      if |splittedLine| != 2 then conf
      else ApplyParams(conf, SplitChar(Strip(splittedLine[1]), ' '))
  }

  /** The lines of the configuration file, in order: the modem list stays, fields only get values without quotes. */
  function ApplyLines(conf: Configuration, lines: seq<string>): (r: Configuration)
    ensures CleanlyUpdated(conf, r)
  {
    if |lines| == 0 then conf
    else ApplyLine(ApplyLines(conf, lines[..|lines| - 1]), lines[|lines| - 1])
  }

  /** The loop over the parameters of one tagged line. */
  method ReadParams(conf: Configuration, params: seq<string>) returns (r: Configuration)
    ensures r == ApplyParams(conf, params)
  {
    r := conf;
    var i := 0;
    while i < |params|
      invariant 0 <= i <= |params|
      invariant r == ApplyParams(conf, params[..i])
    {
      assert params[..i + 1][..i] == params[..i];
      var splittedRawParam := SplitChar(params[i], '=');
      if |splittedRawParam| == 2 {
        var key := ClassifyKey(splittedRawParam[0]);
        if key.Some? {
          r := Assign(r, key.value, CleanValue(splittedRawParam[1]));
        }
      }
      i := i + 1;
    }
    assert params[..|params|] == params;
  }

  /** The loop over the lines of the umtskeeper configuration file. */
  method ReadConfiguration(conf: Configuration, lines: seq<string>) returns (r: Configuration)
    ensures r == ApplyLines(conf, lines)
  {
    r := conf;
    var i := 0;
    while i < |lines|
      invariant 0 <= i <= |lines|
      invariant r == ApplyLines(conf, lines[..i])
    {
      assert lines[..i + 1][..i] == lines[..i];
      var line := lines[i];
      if Contains(line, TAG_CONFIG_SAKIS_OPERATORS) {
        var splittedLine := Split1(line, "=");
        if |splittedLine| == 2 {
          r := ReadParams(r, SplitChar(Strip(splittedLine[1]), ' '));
        }
      }
      i := i + 1;
    }
    assert lines[..|lines|] == lines;
  }

  /**
   * What the REFRESH action reports, for lsusb output `lsusbOutput` and the
   * configuration file's content, if it exists: the modems lsusb lists, and
   * only fields without quotes, all unset when there is no file.
   */
  function Refreshed(lsusbOutput: string, configFile: Option<string>): (r: Configuration)
    ensures r.modemList == Some(ModemsOf(SplitLines(lsusbOutput)))
    ensures CleanlyUpdated(EMPTY_CONFIGURATION.(modemList := r.modemList), r)
    ensures configFile.None? ==> r == EMPTY_CONFIGURATION.(modemList := r.modemList)
  {
    var conf := EMPTY_CONFIGURATION.(modemList := Some(ModemsOf(SplitLines(lsusbOutput))));
    if configFile.None? then conf else ApplyLines(conf, ReadLines(configFile.value))
  }

  /** The REFRESH action: exit status 1 when lsusb fails or prints nothing. */
  method Refresh(lsusbExit: int, lsusbOutput: string, configFile: Option<string>) returns (r: Result<Configuration, int>)
    ensures r.Err? <==> lsusbExit != 0 || |lsusbOutput| == 0
    ensures r.Err? ==> r.error == 1
    ensures r.Ok? ==> r.value == Refreshed(lsusbOutput, configFile)
  {
    if lsusbExit != 0 || |lsusbOutput| == 0 {
      return Err(1);
    }
    var modems := ListModems(SplitLines(lsusbOutput));
    var conf := EMPTY_CONFIGURATION.(modemList := Some(modems));
    if configFile.Some? {
      conf := ReadConfiguration(conf, ReadLines(configFile.value));
    }
    return Ok(conf);
  }

  /** A line of resolv.conf that `get_DNS` takes: two space-separated fields, the first containing `nameserver`. */
  predicate NameserverLine(line: string)
  {
    var fields := SplitChar(line, ' ');
    |fields| == 2 && Contains(fields[0], "nameserver") && fields[1] != ""
  }

  /** The address of a nameserver line: its second field, stripped, a single token without spaces. */
  function NameserverOf(line: string): (r: string)
    requires NameserverLine(line)
    ensures Stripped(r) && ' ' !in r
  {
    Strip(SplitChar(line, ' ')[1])
  }

  predicate NoNameserver(lines: seq<string>)
  {
    forall k :: 0 <= k < |lines| ==> !NameserverLine(lines[k])
  }

  /** Line `k` is the first nameserver line of `lines`, and its address is `address`. */
  predicate FirstNameserver(lines: seq<string>, k: int, address: string)
  {
    0 <= k < |lines| && NameserverLine(lines[k]) && address == NameserverOf(lines[k]) &&
    NoNameserver(lines[..k])
  }

  /** `get_DNS`: the address of the first nameserver line of resolv.conf, if the file exists and has one. */
  method GetDns(resolvConf: Option<string>) returns (dns: Option<string>)
    ensures resolvConf.None? ==> dns.None?
    ensures resolvConf.Some? ==> (dns.None? <==> NoNameserver(ReadLines(resolvConf.value)))
    ensures resolvConf.Some? && dns.Some? ==> exists k :: FirstNameserver(ReadLines(resolvConf.value), k, dns.value)
  {
    if resolvConf.None? {
      return None;
    }
    var lines := ReadLines(resolvConf.value);
    var i := 0;
    while i < |lines|
      invariant 0 <= i <= |lines|
      invariant forall j :: 0 <= j < i ==> !NameserverLine(lines[j])
    {
      var lineSplit := SplitChar(lines[i], ' ');
      if |lineSplit| == 2 && Contains(lineSplit[0], "nameserver") && lineSplit[1] != "" {
        assert FirstNameserver(lines, i, Strip(lineSplit[1]));
        return Some(Strip(lineSplit[1]));
      }
      i := i + 1;
    }
    return None;
  }

  /**
   * `nameserver 8.8.8.8` yields its address; so does a line whose first
   * field merely contains `nameserver`, such as the commented-out
   * `#nameserver 8.8.8.8`.
   */
  lemma NameserverLineAddress(prefix: string, address: string)
    requires ' ' !in prefix && Token(address, ' ') && '\n' !in address
    ensures NameserverLine(prefix + "nameserver " + address + "\n")
    ensures NameserverOf(prefix + "nameserver " + address + "\n") == address
  {
    var first := prefix + "nameserver";
    var second := address + "\n";
    assert prefix + "nameserver " + address + "\n" == JoinChar([first, second], ' ');
    assert ' ' !in first by {
      assert forall c :: c in first ==> c in prefix || c in "nameserver";
    }
    assert ' ' !in second;
    SplitJoin([first, second], ' ');
    assert OccursAt(first, "nameserver", |prefix|) by {
      assert first[|prefix|..|prefix| + 10] == "nameserver";
    }
    AllSpaceNewline();
    StripAround("", address, "\n");
    assert "" + address + "\n" == second;
  }

  lemma AllSpaceNewline()
    ensures AllSpace("\n") && AllSpace("") && AllSpace(" ")
  {
  }

  // ---------------------------------------------------------------------
  // CONNECT: the test command and the umtskeeper configuration

  const BINARY_SAKIS3G := "/usr/umtskeeper/sakis3g"

  /** `sys.argv[2..8]` of the CONNECT action. */
  datatype ConnectArgs = ConnectArgs(usbModem: string, dial: string, apn: string, apnUser: string, apnPass: string, simPin: string)

  /** `name="value"` in the operators template, with quote character `q`. */
  function Param(q: char, name: string, value: string): string
  {
    name + "=" + [q] + value + [q]
  }

  /**
   * The fields of the `sakis_operators` template, or of `sakis_operators_sim_pin`
   * when `sim_pin` is non-empty, filled in; `q` is the template's quote character.
   */
  function OperatorParams(q: char, a: ConnectArgs): (ps: seq<string>)
    ensures |ps| == if |a.simPin| > 0 then 7 else 6
  {
    (if |a.simPin| > 0 then [Param(q, "SIM_PIN", a.simPin)] else []) +
    [Param(q, "DIAL", a.dial), Param(q, "APN", a.apn), Param(q, "APN_USER", a.apnUser),
     Param(q, "APN_PASS", a.apnPass), Param(q, "OTHER", "USBMODEM"), Param(q, "USBMODEM", a.usbModem)]
  }

  function SakisOperators(q: char, a: ConnectArgs): string
  {
    JoinChar(OperatorParams(q, a), ' ')
  }

  /** The sakis3g call and switches that precede the operators in the test command. */
  const TEST_COMMAND_PREFIX := BINARY_SAKIS3G + " connect --nostorage --pppd --nofix --console "

  /** The sakis3g command that tests the connection: the template with double quotes. */
  function TestCommand(a: ConnectArgs): string
  {
    TEST_COMMAND_PREFIX + SakisOperators('"', a)
  }

  /** One line `conf['key'] = value` of the umtskeeper configuration. */
  function ConfLine(key: string, value: string): string
  {
    "conf['" + key + "'] = " + value + "\n"
  }

  const CONFIG_LINE_DEVICE := ConfLine("deviceName", "'modem_mobile_internet'")
  const CONFIG_LINE_SWITCHES := ConfLine("sakisSwitches", "\"--nostorage --pppd --nofix --console\"")
  const CONFIG_REST :=
    ConfLine("sakisMaxFails", "8") + ConfLine("sakisFailLockDuration", "120") + ConfLine("wrongPinDelay", "60") +
    ConfLine("DNSprobeDomain", "'google.com'") + ConfLine("DNSprobeCycle", "600") + ConfLine("writeStats", "False") +
    ConfLine("printMsg", "False") + ConfLine("logMsg", "True") + ConfLine("logFile", "'/var/log/umtskeeper.log'")

  /**
   * `CONFIG_UMTSKEEPER` with its one replacement field filled by the operators
   * template whose double quotes were turned into single quotes.
   */
  function UmtskeeperConfiguration(a: ConnectArgs): (r: string)
    ensures StartsWith(r, CONFIG_LINE_DEVICE + CONFIG_LINE_SWITCHES)
    ensures OccursAt(r, OperatorsLine(SakisOperators('\'', a)), |CONFIG_LINE_DEVICE + CONFIG_LINE_SWITCHES|)
  {
    var head := CONFIG_LINE_DEVICE + CONFIG_LINE_SWITCHES;
    var line := OperatorsLine(SakisOperators('\'', a));
    assert (head + line + CONFIG_REST)[..|head|] == head;
    assert (head + line + CONFIG_REST)[|head|..|head| + |line|] == line;
    head + line + CONFIG_REST
  }

  /** The `sakisOperators` line of the configuration, holding `operators` in double quotes. */
  function OperatorsLine(operators: string): string
  {
    ConfLine("sakisOperators", "\"" + operators + "\"")
  }

  /** No argument of the CONNECT action holds a double quote. */
  predicate NoDoubleQuote(a: ConnectArgs)
  {
    '"' !in a.usbModem && '"' !in a.dial && '"' !in a.apn && '"' !in a.apnUser && '"' !in a.apnPass && '"' !in a.simPin
  }

  /**
   * `prepare_test_command_and_umtskeeper_configuration`: the test command is
   * the sakis3g call followed by the operators, and, when no argument holds
   * a double quote, the configuration's sakisOperators line holds those same
   * operators with their double quotes turned into single ones.
   */
  function PrepareTestCommandAndConfiguration(a: ConnectArgs): (r: (string, string))
    ensures StartsWith(r.0, TEST_COMMAND_PREFIX)
    ensures NoDoubleQuote(a) ==>
      r.1 == CONFIG_LINE_DEVICE + CONFIG_LINE_SWITCHES +
             OperatorsLine(ReplaceChar(r.0[|TEST_COMMAND_PREFIX|..], '"', '\'')) + CONFIG_REST
  {
    CommandCarriesOperators(a);
    (TestCommand(a), UmtskeeperConfiguration(a))
  }

  lemma CommandCarriesOperators(a: ConnectArgs)
    ensures StartsWith(TestCommand(a), TEST_COMMAND_PREFIX)
    ensures TestCommand(a)[|TEST_COMMAND_PREFIX|..] == SakisOperators('"', a)
    ensures NoDoubleQuote(a) ==> ReplaceChar(SakisOperators('"', a), '"', '\'') == SakisOperators('\'', a)
  {
    if NoDoubleQuote(a) {
      ConfigurationQuotes(a);
    }
  }

  lemma JoinStartsWith(fields: seq<string>, c: char)
    requires |fields| >= 1
    ensures StartsWith(JoinChar(fields, c), fields[0])
  {
  }

  /** The operators start with the SIM PIN field iff a PIN was given. */
  lemma SimPinIffGiven(q: char, a: ConnectArgs)
    ensures StartsWith(SakisOperators(q, a), "SIM_PIN=") <==> |a.simPin| > 0
  {
    var ps := OperatorParams(q, a);
    JoinStartsWith(ps, ' ');
    var ops := SakisOperators(q, a);
    if |a.simPin| > 0 {
      assert ps[0] == Param(q, "SIM_PIN", a.simPin);
      assert ps[0][..8] == "SIM_PIN=";
      assert ops[..8] == ps[0][..8];
    } else {
      assert ps[0] == Param(q, "DIAL", a.dial);
      assert ops[0] == ps[0][0] == 'D';
    }
  }

  lemma {:induction false} ReplaceCharAppend(x: string, y: string, c: char, d: char)
    ensures ReplaceChar(x + y, c, d) == ReplaceChar(x, c, d) + ReplaceChar(y, c, d)
  {
  }

  lemma {:induction false} ReplaceCharJoin(fields: seq<string>, sep: char, c: char, d: char)
    requires |fields| >= 1 && sep != c
    ensures ReplaceChar(JoinChar(fields, sep), c, d) ==
      JoinChar(seq(|fields|, k requires 0 <= k < |fields| => ReplaceChar(fields[k], c, d)), sep)
    decreases |fields|
  {
    var mapped := seq(|fields|, k requires 0 <= k < |fields| => ReplaceChar(fields[k], c, d));
    if |fields| > 1 {
      var tail := JoinChar(fields[1..], sep);
      ReplaceCharJoin(fields[1..], sep, c, d);
      var rest := seq(|fields| - 1, k requires 0 <= k < |fields| - 1 => ReplaceChar(fields[1..][k], c, d));
      assert mapped[1..] == rest;
      assert JoinChar(mapped, sep) == mapped[0] + [sep] + JoinChar(rest, sep);
      ReplaceCharAppend(fields[0] + [sep], tail, c, d);
      ReplaceCharAppend(fields[0], [sep], c, d);
      assert ReplaceChar([sep], c, d) == [sep];
    }
  }

  lemma ReplaceQuotes(name: string, value: string)
    requires '"' !in name && '"' !in value
    ensures ReplaceChar(Param('"', name, value), '"', '\'') == Param('\'', name, value)
  {
    var r := ReplaceChar(Param('"', name, value), '"', '\'');
    assert |r| == |Param('\'', name, value)|;
    forall k | 0 <= k < |r|
      ensures r[k] == Param('\'', name, value)[k]
    {
      if k < |name| {
        assert Param('"', name, value)[k] == name[k];
      } else if |name| + 2 <= k < |name| + 2 + |value| {
        assert Param('"', name, value)[k] == value[k - |name| - 2];
      }
    }
  }

  /**
   * Turning the template's double quotes into single quotes before the
   * values are inserted is the same as turning the whole command's quotes
   * into single quotes, as long as no value holds a double quote.
   */
  lemma ConfigurationQuotes(a: ConnectArgs)
    requires NoDoubleQuote(a)
    ensures ReplaceChar(SakisOperators('"', a), '"', '\'') == SakisOperators('\'', a)
  {
    var ps := OperatorParams('"', a);
    ReplaceCharJoin(ps, ' ', '"', '\'');
    ReplaceQuotes("SIM_PIN", a.simPin);
    ReplaceQuotes("DIAL", a.dial);
    ReplaceQuotes("APN", a.apn);
    ReplaceQuotes("APN_USER", a.apnUser);
    ReplaceQuotes("APN_PASS", a.apnPass);
    ReplaceQuotes("OTHER", "USBMODEM");
    ReplaceQuotes("USBMODEM", a.usbModem);
    var mapped := seq(|ps|, k requires 0 <= k < |ps| => ReplaceChar(ps[k], '"', '\''));
    assert mapped == OperatorParams('\'', a);
  }

  lemma {:induction false} JoinContains(fields: seq<string>, sep: char, k: nat, c: char)
    requires |fields| >= 1 && k < |fields| && c in fields[k]
    ensures c in JoinChar(fields, sep)
    decreases |fields|
  {
    if k > 0 {
      JoinContains(fields[1..], sep, k - 1, c);
    }
  }

  /** A double quote inside a value is not replaced: the quote change applies to the template only. */
  lemma ValueQuotesKept(a: ConnectArgs)
    requires '"' in a.apn
    ensures '"' in SakisOperators('\'', a)
  {
    var ps := OperatorParams('\'', a);
    var k := if |a.simPin| > 0 then 2 else 1;
    assert ps[k] == Param('\'', "APN", a.apn);
    assert forall c :: c in a.apn ==> c in Param('\'', "APN", a.apn);
    JoinContains(ps, ' ', k, '"');
  }

  // ---------------------------------------------------------------------
  // CONNECT: exit codes

  /** The commands the script runs, in order. */
  datatype Step =
    | KillAll
    | RunTest(command: string)
    | StopDisableRemove
    | WriteConfiguration(text: string)
    | WriteUnit
    | EnableService
    | StartService

  /**
   * `test_connection`: 2 when the test command fails, else 0; either way the
   * command runs once, with the modem processes killed before and after.
   */
  function TestConnection(command: string, testExit: int): (r: (int, seq<Step>))
    ensures r.0 == 0 <==> testExit == 0
    ensures r.0 == 0 || r.0 == 2
    ensures r.1 == [KillAll, RunTest(command), KillAll]
  {
    if testExit != 0 then (2, [KillAll, RunTest(command), KillAll])
    else (0, [KillAll, RunTest(command), KillAll])
  }

  /**
   * `enable_start_systemd_service`: 3 when enabling fails, 4 when starting
   * fails, else 0; the service is started only once enabled, and a failure
   * stops, disables and removes it.
   */
  function EnableStartSystemdService(enableExit: int, startExit: int): (r: (int, seq<Step>))
    ensures r.0 == 0 <==> enableExit == 0 && startExit == 0
    ensures r.0 == 3 <==> enableExit != 0
    ensures r.0 == 0 || r.0 == 3 || r.0 == 4
    ensures |r.1| >= 2 && r.1[0] == EnableService
    ensures StartService in r.1 <==> enableExit == 0
    ensures r.0 != 0 ==> r.1[|r.1| - 1] == StopDisableRemove
  {
    if enableExit != 0 then (3, [EnableService, StopDisableRemove])
    else if startExit != 0 then (4, [EnableService, StartService, StopDisableRemove])
    else (0, [EnableService, StartService])
  }

  function ArgsOf(argv: seq<string>): ConnectArgs
    requires |argv| >= 8
  {
    ConnectArgs(argv[2], argv[3], argv[4], argv[5], argv[6], argv[7])
  }

  /**
   * The CONNECT action: its exit status and the commands it runs. Too few
   * arguments exit with 1 before anything runs; otherwise the old service
   * is removed first, the test command runs next, the unit file is written
   * only after a successful test, and success ends with starting the service.
   */
  function Connect(argv: seq<string>, testExit: int, enableExit: int, startExit: int): (r: (int, seq<Step>))
    ensures r.0 == 1 <==> |argv| < 8
    ensures |argv| < 8 ==> r.1 == []
    ensures |argv| >= 8 ==> |r.1| >= 4 && r.1[0] == StopDisableRemove && r.1[2] == RunTest(TestCommand(ArgsOf(argv)))
    ensures WriteUnit in r.1 <==> |argv| >= 8 && testExit == 0
    ensures r.0 == 0 ==> r.1[|r.1| - 1] == StartService
  {
    if |argv| < 8 then (1, [])
    else
      var (command, configuration) := PrepareTestCommandAndConfiguration(ArgsOf(argv));
      var (tested, testSteps) := TestConnection(command, testExit);
      if tested != 0 then (tested, [StopDisableRemove] + testSteps)
      else
        var (started, serviceSteps) := EnableStartSystemdService(enableExit, startExit);
        (started, [StopDisableRemove] + testSteps + [WriteConfiguration(configuration), WriteUnit] + serviceSteps)
  }

  /**
   * Each failure has its own exit status; the configuration is written only
   * after a successful test, the service is started only once enabled, and
   * a service failure is cleaned up.
   */
  lemma ConnectExitCodes(argv: seq<string>, testExit: int, enableExit: int, startExit: int)
    ensures var (code, steps) := Connect(argv, testExit, enableExit, startExit);
      (code == 1 <==> |argv| < 8) &&
      (code == 2 <==> |argv| >= 8 && testExit != 0) &&
      (code == 3 <==> |argv| >= 8 && testExit == 0 && enableExit != 0) &&
      (code == 4 <==> |argv| >= 8 && testExit == 0 && enableExit == 0 && startExit != 0) &&
      (code == 0 <==> |argv| >= 8 && testExit == 0 && enableExit == 0 && startExit == 0) &&
      (|argv| >= 8 ==> (WriteConfiguration(UmtskeeperConfiguration(ArgsOf(argv))) in steps <==> testExit == 0)) &&
      (StartService in steps <==> |argv| >= 8 && testExit == 0 && enableExit == 0) &&
      (code == 3 || code == 4 ==> steps[|steps| - 1] == StopDisableRemove)
  {
  }

  // ---------------------------------------------------------------------
  // CONNECT writes what REFRESH reads

  /** A value that survives the configuration file: no separator, quote or newline in it. */
  predicate PlainValue(v: string)
  {
    ' ' !in v && '\n' !in v && '\'' !in v && '"' !in v && '=' !in v
  }

  predicate PlainArgs(a: ConnectArgs)
  {
    PlainValue(a.usbModem) && PlainValue(a.dial) && PlainValue(a.apn) &&
    PlainValue(a.apnUser) && PlainValue(a.apnPass) && PlainValue(a.simPin)
  }

  /** `conf` updated with what a configuration written for `a` holds; an empty PIN is not written. */
  function Written(conf: Configuration, a: ConnectArgs): Configuration
  {
    conf.(modemConfigured := Some(a.usbModem), dial := Some(a.dial), apn := Some(a.apn),
          username := Some(a.apnUser), password := Some(a.apnPass),
          simCardPin := if |a.simPin| > 0 then Some(a.simPin) else conf.simCardPin)
  }

  lemma {:induction false} JoinWithout(fields: seq<string>, sep: char, c: char)
    requires |fields| >= 1 && c != sep && forall k :: 0 <= k < |fields| ==> c !in fields[k]
    ensures c !in JoinChar(fields, sep)
    decreases |fields|
  {
    if |fields| > 1 {
      JoinWithout(fields[1..], sep, c);
    }
  }

  lemma {:induction false} JoinPrepend(x: string, fields: seq<string>, sep: char)
    requires |fields| >= 1
    ensures x + JoinChar(fields, sep) == JoinChar([x + fields[0]] + fields[1..], sep)
  {
    var ys := [x + fields[0]] + fields[1..];
    if |fields| > 1 {
      assert ys[1..] == fields[1..];
    }
  }

  lemma {:induction false} JoinAppend(fields: seq<string>, y: string, sep: char)
    requires |fields| >= 1
    ensures JoinChar(fields, sep) + y == JoinChar(fields[..|fields| - 1] + [fields[|fields| - 1] + y], sep)
    decreases |fields|
  {
    var n := |fields|;
    var ys := fields[..n - 1] + [fields[n - 1] + y];
    if n > 1 {
      JoinAppend(fields[1..], y, sep);
      assert ys[1..] == fields[1..][..n - 2] + [fields[1..][n - 2] + y];
    }
  }

  /** The operators between the double quotes of the written line, as `split(' ')` cuts them. */
  function WrittenFields(a: ConnectArgs): seq<string>
  {
    (if |a.simPin| > 0 then ["\"" + Param('\'', "SIM_PIN", a.simPin), Param('\'', "DIAL", a.dial)]
     else ["\"" + Param('\'', "DIAL", a.dial)]) +
    [Param('\'', "APN", a.apn), Param('\'', "APN_USER", a.apnUser), Param('\'', "APN_PASS", a.apnPass),
     Param('\'', "OTHER", "USBMODEM"), Param('\'', "USBMODEM", a.usbModem) + "\""]
  }

  lemma QuotedOperators(a: ConnectArgs)
    ensures "\"" + SakisOperators('\'', a) + "\"" == JoinChar(WrittenFields(a), ' ')
  {
    var ps := OperatorParams('\'', a);
    var n := |ps|;
    JoinPrepend("\"", ps, ' ');
    var qs := ["\"" + ps[0]] + ps[1..];
    JoinAppend(qs, "\"", ' ');
    var rs := qs[..n - 1] + [qs[n - 1] + "\""];
    var ws := WrittenFields(a);
    assert |rs| == |ws|;
    forall k | 0 <= k < |rs|
      ensures rs[k] == ws[k]
    {
      if 0 < k < n - 1 {
        assert rs[k] == ps[k];
      }
    }
    assert rs == ws;
  }

  lemma ParamWithout(name: string, v: string, c: char)
    requires c !in name && c !in v && c != '\'' && c != '='
    ensures c !in Param('\'', name, v)
  {
  }

  /** No field of the written operators holds a space. */
  lemma WrittenFieldsSplit(a: ConnectArgs)
    requires PlainArgs(a)
    ensures SplitChar(JoinChar(WrittenFields(a), ' '), ' ') == WrittenFields(a)
  {
    var fs := WrittenFields(a);
    ParamWithout("SIM_PIN", a.simPin, ' ');
    ParamWithout("DIAL", a.dial, ' ');
    ParamWithout("APN", a.apn, ' ');
    ParamWithout("APN_USER", a.apnUser, ' ');
    ParamWithout("APN_PASS", a.apnPass, ' ');
    ParamWithout("OTHER", "USBMODEM", ' ');
    ParamWithout("USBMODEM", a.usbModem, ' ');
    forall k | 0 <= k < |fs|
      ensures ' ' !in fs[k]
    {
    }
    SplitJoin(fs, ' ');
  }

  /** A single-quoted value, with a double quote after it when it ends the line, cleans to itself. */
  lemma CleanQuoted(v: string, post: string)
    requires PlainValue(v) && (post == "" || post == "\"")
    ensures CleanValue("'" + v + "'" + post) == v
  {
    var w := "'" + v + "'" + post;
    assert Stripped(w);
    StripStripped(w);
    RemoveSingleQuotes(v, post);
    RemoveCharAppend(v, post, '"');
    RemoveCharAbsent(v, '"');
    assert RemoveChar(post, '"') == "";
  }

  lemma RemoveSingleQuotes(v: string, post: string)
    requires '\'' !in v && '\'' !in post
    ensures RemoveChar("'" + v + "'" + post, '\'') == v + post
  {
    var q := "'";
    var c := '\'';
    assert RemoveChar(q, c) == "";
    RemoveCharAbsent(v, c);
    RemoveCharAbsent(post, c);
    RemoveCharAppend(q, v, c);
    assert RemoveChar(q + v, c) == v;
    RemoveCharAppend(q + v, q, c);
    assert RemoveChar(q + v + q, c) == v;
    RemoveCharAppend(q + v + q, post, c);
  }

  /** One written parameter sets the key its name classifies as, to its value. */
  lemma ApplyWrittenParam(conf: Configuration, pre: string, name: string, v: string, post: string)
    requires PlainValue(v) && (post == "" || post == "\"") && '=' !in pre + name
    ensures ApplyParam(conf, pre + Param('\'', name, v) + post) ==
      match ClassifyKey(pre + name)
      case None => conf
      case Some(k) => Assign(conf, k, v)
  {
    var raw := pre + Param('\'', name, v) + post;
    var value := "'" + v + "'" + post;
    assert raw == JoinChar([pre + name, value], '=');
    assert '=' !in value;
    SplitJoin([pre + name, value], '=');
    CleanQuoted(v, post);
  }

  lemma ApplyParamsSnoc(conf: Configuration, ps: seq<string>, p: string)
    ensures ApplyParams(conf, ps + [p]) == ApplyParam(ApplyParams(conf, ps), p)
  {
    assert (ps + [p])[..|ps|] == ps;
  }

  /** Each written parameter, as `split(' ')` leaves it, sets its own key. */
  lemma ApplyWrittenSimPin(conf: Configuration, v: string)
    requires PlainValue(v)
    ensures ApplyParam(conf, "\"" + Param('\'', "SIM_PIN", v)) == conf.(simCardPin := Some(v))
  {
    KeysOfTheWrittenLineSim();
    assert "\"" + "SIM_PIN" == "\"SIM_PIN";
    ApplyWrittenParam(conf, "\"", "SIM_PIN", v, "");
    assert "\"" + Param('\'', "SIM_PIN", v) + "" == "\"" + Param('\'', "SIM_PIN", v);
  }

  lemma ApplyWrittenDial(conf: Configuration, v: string, pre: string)
    requires PlainValue(v) && (pre == "" || pre == "\"")
    ensures ApplyParam(conf, pre + Param('\'', "DIAL", v)) == conf.(dial := Some(v))
  {
    KeysOfTheWrittenLineDial();
    if pre == "" {
      assert pre + "DIAL" == "DIAL";
    } else {
      assert pre + "DIAL" == "\"DIAL";
    }
    ApplyWrittenParam(conf, pre, "DIAL", v, "");
    assert pre + Param('\'', "DIAL", v) + "" == pre + Param('\'', "DIAL", v);
  }

  lemma ApplyWrittenApn(conf: Configuration, v: string)
    requires PlainValue(v)
    ensures ApplyParam(conf, Param('\'', "APN", v)) == conf.(apn := Some(v))
  {
    KeysOfTheWrittenLineRest();
    ApplyWrittenParam(conf, "", "APN", v, "");
    assert "" + Param('\'', "APN", v) + "" == Param('\'', "APN", v) && "" + "APN" == "APN";
  }

  lemma ApplyWrittenApnUser(conf: Configuration, v: string)
    requires PlainValue(v)
    ensures ApplyParam(conf, Param('\'', "APN_USER", v)) == conf.(username := Some(v))
  {
    ApnDoesNotShadowApnUser();
    ApplyWrittenParam(conf, "", "APN_USER", v, "");
    assert "" + Param('\'', "APN_USER", v) + "" == Param('\'', "APN_USER", v) && "" + "APN_USER" == "APN_USER";
  }

  lemma ApplyWrittenApnPass(conf: Configuration, v: string)
    requires PlainValue(v)
    ensures ApplyParam(conf, Param('\'', "APN_PASS", v)) == conf.(password := Some(v))
  {
    ApnDoesNotShadowApnUser();
    ApplyWrittenParam(conf, "", "APN_PASS", v, "");
    assert "" + Param('\'', "APN_PASS", v) + "" == Param('\'', "APN_PASS", v) && "" + "APN_PASS" == "APN_PASS";
  }

  /** `OTHER='USBMODEM'` names no key the script reads and changes nothing. */
  lemma ApplyWrittenOther(conf: Configuration)
    ensures ApplyParam(conf, Param('\'', "OTHER", "USBMODEM")) == conf
  {
    KeysOfTheWrittenLineRest();
    ApplyWrittenParam(conf, "", "OTHER", "USBMODEM", "");
    assert "" + Param('\'', "OTHER", "USBMODEM") + "" == Param('\'', "OTHER", "USBMODEM") && "" + "OTHER" == "OTHER";
  }

  lemma ApplyWrittenUsbModem(conf: Configuration, v: string)
    requires PlainValue(v)
    ensures ApplyParam(conf, Param('\'', "USBMODEM", v) + "\"") == conf.(modemConfigured := Some(v))
  {
    KeysOfTheWrittenLineRest();
    ApplyWrittenParam(conf, "", "USBMODEM", v, "\"");
    assert "" + Param('\'', "USBMODEM", v) + "\"" == Param('\'', "USBMODEM", v) + "\"" && "" + "USBMODEM" == "USBMODEM";
  }

  /** The fields after the PIN and dial number: the APN data, the ignored `OTHER` and the modem. */
  lemma ApplyWrittenTail(conf: Configuration, a: ConnectArgs, head: seq<string>)
    requires PlainArgs(a)
    ensures ApplyParams(conf, head + [Param('\'', "APN", a.apn), Param('\'', "APN_USER", a.apnUser),
      Param('\'', "APN_PASS", a.apnPass), Param('\'', "OTHER", "USBMODEM"), Param('\'', "USBMODEM", a.usbModem) + "\""]) ==
      ApplyParams(conf, head).(apn := Some(a.apn), username := Some(a.apnUser), password := Some(a.apnPass),
        modemConfigured := Some(a.usbModem))
  {
    var p1 := Param('\'', "APN", a.apn);
    var p2 := Param('\'', "APN_USER", a.apnUser);
    var p3 := Param('\'', "APN_PASS", a.apnPass);
    var p4 := Param('\'', "OTHER", "USBMODEM");
    var p5 := Param('\'', "USBMODEM", a.usbModem) + "\"";
    var s1 := head + [p1];
    var s2 := s1 + [p2];
    var s3 := s2 + [p3];
    var s4 := s3 + [p4];
    assert head + [p1, p2, p3, p4, p5] == s4 + [p5];
    var c0 := ApplyParams(conf, head);
    ApplyParamsSnoc(conf, head, p1);
    ApplyWrittenApn(c0, a.apn);
    var c1 := c0.(apn := Some(a.apn));
    ApplyParamsSnoc(conf, s1, p2);
    ApplyWrittenApnUser(c1, a.apnUser);
    var c2 := c1.(username := Some(a.apnUser));
    ApplyParamsSnoc(conf, s2, p3);
    ApplyWrittenApnPass(c2, a.apnPass);
    var c3 := c2.(password := Some(a.apnPass));
    ApplyParamsSnoc(conf, s3, p4);
    ApplyWrittenOther(c3);
    ApplyParamsSnoc(conf, s4, p5);
    ApplyWrittenUsbModem(c3, a.usbModem);
  }

  /** Reading the written fields back sets every key the CONNECT arguments name. */
  lemma ApplyWrittenFields(conf: Configuration, a: ConnectArgs)
    requires PlainArgs(a)
    ensures ApplyParams(conf, WrittenFields(a)) == Written(conf, a)
  {
    if |a.simPin| > 0 {
      var p0 := "\"" + Param('\'', "SIM_PIN", a.simPin);
      var p1 := Param('\'', "DIAL", a.dial);
      var head := [p0, p1];
      ApplyWrittenTail(conf, a, head);
      assert head == [] + [p0] + [p1];
      ApplyParamsSnoc(conf, [], p0);
      ApplyParamsSnoc(conf, [] + [p0], p1);
      ApplyWrittenSimPin(conf, a.simPin);
      ApplyWrittenDial(conf.(simCardPin := Some(a.simPin)), a.dial, "");
      assert "" + p1 == p1;
    } else {
      var p0 := "\"" + Param('\'', "DIAL", a.dial);
      var head := [p0];
      ApplyWrittenTail(conf, a, head);
      ApplyParamsSnoc(conf, [], p0);
      assert head == [] + [p0];
      ApplyWrittenDial(conf, a.dial, "\"");
    }
  }

  /** The tag holds an upper-case `O`: a line without one is skipped. */
  lemma TagHasO(line: string)
    ensures Contains(line, TAG_CONFIG_SAKIS_OPERATORS) ==> 'O' in line
  {
    if Contains(line, TAG_CONFIG_SAKIS_OPERATORS) {
      var i := IndexOf(line, TAG_CONFIG_SAKIS_OPERATORS).value;
      assert line[i..i + |TAG_CONFIG_SAKIS_OPERATORS|] == TAG_CONFIG_SAKIS_OPERATORS;
      assert line[i + 11] == TAG_CONFIG_SAKIS_OPERATORS[11] == 'O';
    }
  }

  lemma {:induction false} ApplyLinesSkipped(conf: Configuration, lines: seq<string>)
    requires forall k :: 0 <= k < |lines| ==> 'O' !in lines[k]
    ensures ApplyLines(conf, lines) == conf
  {
    if |lines| > 0 {
      ApplyLinesSkipped(conf, lines[..|lines| - 1]);
      TagHasO(lines[|lines| - 1]);
    }
  }

  lemma {:induction false} ApplyLinesAppend(conf: Configuration, a: seq<string>, b: seq<string>)
    ensures ApplyLines(conf, a + b) == ApplyLines(ApplyLines(conf, a), b)
    decreases |b|
  {
    if |b| == 0 {
      assert a + b == a;
    } else {
      ApplyLinesAppend(conf, a, b[..|b| - 1]);
      assert (a + b)[..|a + b| - 1] == a + b[..|b| - 1];
    }
  }

  /** A character in neither the key, the value nor the line's frame is not in the line. */
  lemma ConfLineWithout(key: string, value: string, c: char)
    requires c !in key && c !in value && c !in "conf['" && c !in "'] = " && c != '\n'
    ensures c !in ConfLine(key, value)
  {
  }

  /** `line` ends in its only newline. */
  predicate SingleLine(line: string)
  {
    |line| > 0 && line[|line| - 1] == '\n' && '\n' !in line[..|line| - 1]
  }

  /** A configuration line is one line when neither key nor value holds a newline. */
  lemma ConfLineSingle(key: string, value: string)
    requires '\n' !in key && '\n' !in value
    ensures SingleLine(ConfLine(key, value))
  {
    var line := ConfLine(key, value);
    var body := "conf['" + key + "'] = " + value;
    assert line == body + "\n";
    assert line[..|line| - 1] == body;
    assert '\n' !in "conf['" && '\n' !in "'] = ";
  }

  lemma ReadThreeLines(l1: string, l2: string, l3: string, rest: string)
    requires SingleLine(l1) && SingleLine(l2) && SingleLine(l3)
    ensures ReadLines(l1 + l2 + l3 + rest) == [l1, l2, l3] + ReadLines(rest)
  {
    var tail := ReadLines(rest);
    ReadLinesLine(l3, rest);
    assert ReadLines(l3 + rest) == [l3] + tail;
    ReadLinesLine(l2, l3 + rest);
    assert ReadLines(l2 + (l3 + rest)) == [l2, l3] + tail;
    ReadLinesLine(l1, l2 + (l3 + rest));
    assert ReadLines(l1 + (l2 + (l3 + rest))) == [l1, l2, l3] + tail;
    assert l1 + l2 + l3 + rest == l1 + (l2 + (l3 + rest));
  }

  /** The `sakisOperators` line: the tag, then ` = `, the quoted operators and a newline. */
  lemma OperatorsLineShape(operators: string)
    ensures var rhs := " " + "\"" + operators + "\"" + "\n";
            OperatorsLine(operators) == "conf['sakisOperators'] " + ['='] + rhs &&
            OperatorsLine(operators) == TAG_CONFIG_SAKIS_OPERATORS + (" =" + rhs)
  {
    assert "conf['" + "sakisOperators" + "'] = " == "conf['sakisOperators'] " + ['='] + " ";
  }

  /** The `sakisOperators` line is cut at its first `=` and its stripped right side split at spaces. */
  lemma ReadOperatorsLine(conf: Configuration, operators: string)
    ensures ApplyLine(conf, OperatorsLine(operators)) == ApplyParams(conf, SplitChar("\"" + operators + "\"", ' '))
  {
    var line := OperatorsLine(operators);
    var quoted := "\"" + operators + "\"";
    var name := "conf['sakisOperators'] ";
    var rhs := " " + quoted + "\n";
    OperatorsLineShape(operators);
    assert line == name + ['='] + rhs;
    assert StartsWith(line, TAG_CONFIG_SAKIS_OPERATORS) by {
      assert line[..|TAG_CONFIG_SAKIS_OPERATORS|] == TAG_CONFIG_SAKIS_OPERATORS;
    }
    IndexOfPrefix(line, TAG_CONFIG_SAKIS_OPERATORS);
    IndexOfCharAfter(name, '=', rhs);
    Split1At(line, "=", |name|);
    assert line[|name| + 1..] == rhs;
    StripAround(" ", quoted, "\n");
  }

  /** The file is read as the device line, the switches line, the operators line and the rest. */
  lemma ConfigurationLines(operators: string)
    requires '\n' !in operators
    ensures ReadLines(CONFIG_LINE_DEVICE + CONFIG_LINE_SWITCHES + OperatorsLine(operators) + CONFIG_REST) ==
      [CONFIG_LINE_DEVICE, CONFIG_LINE_SWITCHES, OperatorsLine(operators)] + ReadLines(CONFIG_REST)
  {
    assert '\n' !in "\"" + operators + "\"";
    ConfLineSingle("sakisOperators", "\"" + operators + "\"");
    DeviceLineFacts();
    SwitchesLineFacts();
    ReadThreeLines(CONFIG_LINE_DEVICE, CONFIG_LINE_SWITCHES, OperatorsLine(operators), CONFIG_REST);
  }

  lemma DeviceValueFacts()
    ensures '\n' !in "'modem_mobile_internet'" && 'O' !in "'modem_mobile_internet'"
  {
  }

  lemma DeviceLineFacts()
    ensures SingleLine(CONFIG_LINE_DEVICE) && 'O' !in CONFIG_LINE_DEVICE
  {
    DeviceValueFacts();
    ConfLineSingle("deviceName", "'modem_mobile_internet'");
    ConfLineWithout("deviceName", "'modem_mobile_internet'", 'O');
  }

  lemma SwitchesValueFacts()
    ensures '\n' !in "\"--nostorage --pppd --nofix --console\"" && 'O' !in "\"--nostorage --pppd --nofix --console\""
  {
  }

  lemma SwitchesLineFacts()
    ensures SingleLine(CONFIG_LINE_SWITCHES) && 'O' !in CONFIG_LINE_SWITCHES
  {
    SwitchesValueFacts();
    ConfLineSingle("sakisSwitches", "\"--nostorage --pppd --nofix --console\"");
    ConfLineWithout("sakisSwitches", "\"--nostorage --pppd --nofix --console\"", 'O');
  }

  lemma RestWithoutO()
    ensures 'O' !in CONFIG_REST
  {
    ConfLineWithout("sakisMaxFails", "8", 'O');
    ConfLineWithout("sakisFailLockDuration", "120", 'O');
    ConfLineWithout("wrongPinDelay", "60", 'O');
    ConfLineWithout("DNSprobeDomain", "'google.com'", 'O');
    ConfLineWithout("DNSprobeCycle", "600", 'O');
    ConfLineWithout("writeStats", "False", 'O');
    ConfLineWithout("printMsg", "False", 'O');
    ConfLineWithout("logMsg", "True", 'O');
    ConfLineWithout("logFile", "'/var/log/umtskeeper.log'", 'O');
  }

  /** The fixed lines of the configuration leave the configuration as it was. */
  lemma FixedLinesSkipped(conf: Configuration)
    ensures ApplyLines(conf, [CONFIG_LINE_DEVICE, CONFIG_LINE_SWITCHES]) == conf
    ensures ApplyLines(conf, ReadLines(CONFIG_REST)) == conf
  {
    DeviceLineFacts();
    SwitchesLineFacts();
    ApplyLinesSkipped(conf, [CONFIG_LINE_DEVICE, CONFIG_LINE_SWITCHES]);
    RestWithoutO();
    ReadLinesWithout(CONFIG_REST, 'O');
    ApplyLinesSkipped(conf, ReadLines(CONFIG_REST));
  }

  lemma OperatorsWithoutNewline(a: ConnectArgs)
    requires PlainArgs(a)
    ensures '\n' !in SakisOperators('\'', a)
  {
    var fields := OperatorParams('\'', a);
    ParamWithout("SIM_PIN", a.simPin, '\n');
    ParamWithout("DIAL", a.dial, '\n');
    ParamWithout("APN", a.apn, '\n');
    ParamWithout("APN_USER", a.apnUser, '\n');
    ParamWithout("APN_PASS", a.apnPass, '\n');
    ParamWithout("OTHER", "USBMODEM", '\n');
    ParamWithout("USBMODEM", a.usbModem, '\n');
    forall k | 0 <= k < |fields|
      ensures '\n' !in fields[k]
    {
    }
    JoinWithout(fields, ' ', '\n');
  }

  /** Of the file's lines only the operators line changes the configuration. */
  lemma OnlyOperatorsLineApplies(conf: Configuration, line: string)
    ensures ApplyLines(conf, [CONFIG_LINE_DEVICE, CONFIG_LINE_SWITCHES, line] + ReadLines(CONFIG_REST)) == ApplyLine(conf, line)
  {
    var fixed := [CONFIG_LINE_DEVICE, CONFIG_LINE_SWITCHES];
    assert [CONFIG_LINE_DEVICE, CONFIG_LINE_SWITCHES, line] == fixed + [line];
    ApplyLinesAppend(conf, fixed + [line], ReadLines(CONFIG_REST));
    ApplyLinesAppend(conf, fixed, [line]);
    FixedLinesSkipped(conf);
    assert ApplyLines(conf, fixed + [line]) == ApplyLine(conf, line) by {
      assert (fixed + [line])[..2] == fixed;
    }
    FixedLinesSkipped(ApplyLine(conf, line));
  }

  /** Reading the configuration written for `a` on top of `conf` sets what `a` names. */
  lemma ReadWrittenConfiguration(conf: Configuration, a: ConnectArgs)
    requires PlainArgs(a)
    ensures ApplyLines(conf, ReadLines(UmtskeeperConfiguration(a))) == Written(conf, a)
  {
    var operators := SakisOperators('\'', a);
    OperatorsWithoutNewline(a);
    ConfigurationLines(operators);
    OnlyOperatorsLineApplies(conf, OperatorsLine(operators));
    ReadOperatorsLine(conf, operators);
    QuotedOperators(a);
    WrittenFieldsSplit(a);
    ApplyWrittenFields(conf, a);
  }

  /**
   * What CONNECT writes, REFRESH reads back: every key set to its CONNECT
   * argument, the SIM PIN only when one was given, the modem list untouched.
   */
  lemma ConfigurationRoundTrip(lsusbOutput: string, a: ConnectArgs)
    requires PlainArgs(a)
    ensures Refreshed(lsusbOutput, Some(UmtskeeperConfiguration(a))) == Written(Refreshed(lsusbOutput, None), a)
  {
    ReadWrittenConfiguration(Refreshed(lsusbOutput, None), a);
  }
}
