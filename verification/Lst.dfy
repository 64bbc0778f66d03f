/** The .lst playlist text: the printer, the parser, and that each undoes the other. */
module Lst {
  import opened Basics

  // ---------------------------------------------------------------- characters

  /** Characters that end a line. */
  predicate IsBreak(c: char) {
    c == '\n' || c == '\r' || 0x0B <= c as int <= 0x0C || 0x1C <= c as int <= 0x1E || c as int == 0x85 ||
    c as int == 0x2028 || c as int == 0x2029
  }

  /** White space that stripping removes. */
  predicate IsSpace(c: char) {
    c == ' ' || 0x09 <= c as int <= 0x0D || 0x1C <= c as int <= 0x1F || c as int == 0x85 || c as int == 0xA0 ||
    c as int == 0x1680 || 0x2000 <= c as int <= 0x200A || c as int == 0x2028 || c as int == 0x2029 ||
    c as int == 0x202F || c as int == 0x205F || c as int == 0x3000
  }

  predicate IsDigit(c: char) { '0' <= c <= '9' }

  predicate AllDigits(s: string) { s != "" && forall c :: c in s ==> IsDigit(c) }

  function StripLeft(s: string): string { if s != "" && IsSpace(s[0]) then StripLeft(s[1..]) else s }

  function StripRight(s: string): string {
    if s != "" && IsSpace(s[|s| - 1]) then StripRight(s[..|s| - 1]) else s
  }

  function Strip(s: string): string { StripRight(StripLeft(s)) }

  /** Index of the first character for which `p` holds, or the length. */
  function IndexWhere(s: string, p: char -> bool): (n: nat)
    ensures n <= |s| && (n < |s| ==> p(s[n]))
    ensures forall i :: 0 <= i < n ==> !p(s[i])
  {
    if s == "" || p(s[0]) then 0 else 1 + IndexWhere(s[1..], p)
  }

  // ---------------------------------------------------------------- numbers

  function Digit(d: nat): char
    requires d < 10
  {
    '0' + d as char
  }

  function Decimal(n: nat): string {
    if n < 10 then [Digit(n)] else Decimal(n / 10) + [Digit(n % 10)]
  }

  function Value(s: string): nat
    requires forall c :: c in s ==> IsDigit(c)
  {
    if s == "" then 0
    else
      var last := s[|s| - 1];
      assert last in s && IsDigit(last);
      10 * Value(s[..|s| - 1]) + (last - '0') as int
  }

  lemma {:induction false} DecimalValue(n: nat)
    ensures AllDigits(Decimal(n)) && Value(Decimal(n)) == n
  {
    if n < 10 {
      assert [Digit(n)][..0] == "";
    } else {
      DecimalValue(n / 10);
      var s := Decimal(n);
      assert s[..|s| - 1] == Decimal(n / 10);
      assert forall c :: c in s ==> c in Decimal(n / 10) || c == Digit(n % 10);
    }
  }

  // ---------------------------------------------------------------- paths

  const AUDIO_EXTS := {".mp3", ".m4a", ".mp4", ".aac", ".wav", ".flac", ".ogg"}

  predicate IsSep(c: char) { c == '/' || c == '\\' }

  function Lower(c: char): char { if 'A' <= c <= 'Z' then (c as int + 32) as char else c }

  function Lowered(s: string): string { seq(|s|, i requires 0 <= i < |s| => Lower(s[i])) }

  /** The file name: what follows the last separator. */
  function BaseName(p: string): string {
    if p == "" || IsSep(p[|p| - 1]) then "" else BaseName(p[..|p| - 1]) + [p[|p| - 1]]
  }

  /** The extension of a file name: from its last dot, unless only dots come before that. */
  function Extension(name: string): string {
    if name == "" then ""
    else if name[|name| - 1] == '.' then
      if exists c :: c in name && c != '.' then "." else ""
    else
      var e := Extension(name[..|name| - 1]);
      if e == "" then "" else e + [name[|name| - 1]]
  }

  predicate IsAudio(p: string) { Lowered(Extension(BaseName(p))) in AUDIO_EXTS }

  /** `k` is where the extension of a file name starts: its last dot, with something else before it. */
  predicate ExtensionAt(name: string, k: nat) {
    && k < |name| && name[k] == '.'
    && (forall i :: k < i < |name| ==> name[i] != '.')
    && exists j :: 0 <= j < k && name[j] != '.'
  }

  predicate HasOther(s: string) { exists j :: 0 <= j < |s| && s[j] != '.' }

  lemma OtherThere(name: string)
    ensures (exists c :: c in name && c != '.') <==> HasOther(name)
  {
    if exists c :: c in name && c != '.' {
      var c :| c in name && c != '.';
      var j :| 0 <= j < |name| && name[j] == c;
    }
    if HasOther(name) {
      var j :| 0 <= j < |name| && name[j] != '.';
      assert name[j] in name;
    }
  }

  lemma ExtensionAtDot(name: string)
    requires name != "" && name[|name| - 1] == '.'
    ensures ExtensionAt(name, |name| - 1) <==> HasOther(name)
    ensures forall k :: ExtensionAt(name, k) ==> k == |name| - 1
  {
  }

  lemma ExtensionAtInit(name: string, k: nat)
    requires name != "" && name[|name| - 1] != '.'
    ensures ExtensionAt(name, k) <==> ExtensionAt(name[..|name| - 1], k)
  {
    var init := name[..|name| - 1];
    if ExtensionAt(name, k) {
      var j :| 0 <= j < k && name[j] != '.';
      assert init[j] == name[j];
      assert forall i :: k < i < |init| ==> init[i] == name[i];
    }
    if ExtensionAt(init, k) {
      var j :| 0 <= j < k && init[j] != '.';
      assert init[j] == name[j];
      assert forall i :: k < i < |init| ==> init[i] == name[i];
    }
  }

  lemma {:induction false} ExtensionIs(name: string)
    ensures Extension(name) == "" ==> forall k :: !ExtensionAt(name, k)
    ensures var e := Extension(name); e != "" ==> |e| <= |name| && ExtensionAt(name, |name| - |e|) && e == name[|name| - |e|..]
    decreases |name|
  {
    if name == "" {
    } else if name[|name| - 1] == '.' {
      hide ExtensionAt, HasOther;
      OtherThere(name);
      ExtensionAtDot(name);
    } else {
      hide ExtensionAt;
      var init := name[..|name| - 1];
      ExtensionIs(init);
      forall k: nat ensures ExtensionAt(name, k) <==> ExtensionAt(init, k) { ExtensionAtInit(name, k); }
    }
  }

  lemma {:induction false} BaseNameIs(p: string)
    ensures var b := |p| - |BaseName(p)|;
            && b >= 0 && BaseName(p) == p[b..] && (b > 0 ==> IsSep(p[b - 1]))
            && forall i :: b <= i < |p| ==> !IsSep(p[i])
    decreases |p|
  {
    if p != "" && !IsSep(p[|p| - 1]) { BaseNameIs(p[..|p| - 1]); }
  }

  /** The part of a path from `k` on is its extension: a dot with neither dot nor separator after it, and
      before it, in the same file name, something other than dots. */
  predicate PathExtensionAt(p: string, k: nat) {
    && k < |p| && p[k] == '.'
    && (forall i :: k < i < |p| ==> p[i] != '.' && !IsSep(p[i]))
    && exists j :: 0 <= j < k && p[j] != '.' && forall i :: j <= i < k ==> !IsSep(p[i])
  }

  /** The extension found in the file name is the path's. */
  lemma PathExtensionIs(p: string)
    ensures var e := Extension(BaseName(p));
            && |e| <= |p| && e == p[|p| - |e|..]
            && forall k: nat :: PathExtensionAt(p, k) <==> e != "" && k == |p| - |e|
  {
    hide BaseName, Extension, ExtensionAt, PathExtensionAt;
    var name := BaseName(p);
    var b, e := |p| - |name|, Extension(name);
    BaseNameIs(p);
    ExtensionIs(name);
    forall k: nat ensures PathExtensionAt(p, k) <==> e != "" && k == |p| - |e| {
      if k >= b { ExtensionMoves(p, name, b, k - b); }
      if PathExtensionAt(p, k) {
        ExtensionInName(p, b, k);
        OneExtension(name, k - b, |name| - |e|);
      }
    }
  }

  /** A path is an audio file's if and only if its extension, in any case of letters, is one of the list. */
  lemma AudioExactly(p: string)
    ensures IsAudio(p) <==> exists k: nat :: PathExtensionAt(p, k) && Lowered(p[k..]) in AUDIO_EXTS
  {
    hide BaseName, Extension, PathExtensionAt, Lowered;
    PathExtensionIs(p);
    NoExtension();
    var e := Extension(BaseName(p));
    if IsAudio(p) { assert PathExtensionAt(p, |p| - |e|); }
  }

  lemma NoExtension()
    ensures Lowered("") !in AUDIO_EXTS
  {
    assert Lowered("") == "";
  }

  lemma OneExtension(name: string, j: nat, k: nat)
    requires ExtensionAt(name, j) && ExtensionAt(name, k)
    ensures j == k
  {
  }

  lemma ExtensionMoves(p: string, name: string, b: nat, k: nat)
    requires b <= |p| && name == p[b..] && (b > 0 ==> IsSep(p[b - 1])) && forall i :: b <= i < |p| ==> !IsSep(p[i])
    ensures ExtensionAt(name, k) <==> PathExtensionAt(p, b + k)
  {
    if ExtensionAt(name, k) {
      var j :| 0 <= j < k && name[j] != '.';
      assert p[b + j] == name[j];
      assert forall i :: k < i < |name| ==> name[i] == p[b + i];
    }
    if PathExtensionAt(p, b + k) {
      var j :| 0 <= j < b + k && p[j] != '.' && forall i :: j <= i < b + k ==> !IsSep(p[i]);
      assert j >= b;
      assert name[j - b] == p[j];
      assert forall i :: k < i < |name| ==> name[i] == p[b + i];
    }
  }

  lemma ExtensionInName(p: string, b: nat, k: nat)
    requires b <= |p| && (b > 0 ==> IsSep(p[b - 1])) && PathExtensionAt(p, k)
    ensures k >= b
  {
  }

  function Backslashed(p: string): (q: string)
    ensures |q| == |p|
  {
    seq(|p|, i requires 0 <= i < |p| => if p[i] == '/' then '\\' else p[i])
  }

  lemma {:induction false} BackslashedName(p: string)
    ensures BaseName(Backslashed(p)) == BaseName(p)
  {
    if p != "" {
      assert Backslashed(p)[..|p| - 1] == Backslashed(p[..|p| - 1]);
      BackslashedName(p[..|p| - 1]);
    }
  }

  // ---------------------------------------------------------------- the parser

  /** A parsed track: its path, and its length in milliseconds when it is known. */
  datatype Track = Track(path: string, ms: Option<nat>)

  /** One line's end and the start of the next. */
  function SplitLines(text: string): seq<string>
    decreases |text|
  {
    var n := IndexWhere(text, IsBreak);
    if text == "" then []
    else if n == |text| then [text]
    else if text[n] == '\r' && n + 1 < |text| && text[n + 1] == '\n' then [text[..n]] + SplitLines(text[n + 2..])
    else [text[..n]] + SplitLines(text[n + 1..])
  }

  predicate IsTab(c: char) { c == '\t' }

  /** An optional minus sign and digits. */
  predicate IsInteger(s: string) { AllDigits(s) || (s != "" && s[0] == '-' && AllDigits(s[1..])) }

  function PathAndLength(line: string): Track {
    var n := IndexWhere(line, IsTab);
    if n < |line| && IsInteger(Strip(line[..n])) then
      var number := Strip(line[..n]);
      var ms := if AllDigits(number) then Value(number) else 0;   // a negative length is unknown too
      Track(Strip(line[n + 1..]), if ms > 0 then Some(ms) else None)
    else Track(line, None)
  }

  function ParsedLine(raw: string): seq<Track> {
    var line := Strip(raw);
    if line == "" || AllDigits(line) then []
    else
      var t := PathAndLength(line);
      if IsAudio(t.path) then [t] else []
  }

  function ParsedLines(lines: seq<string>): seq<Track>
    decreases |lines|
  {
    if lines == [] then [] else ParsedLines(lines[..|lines| - 1]) + ParsedLine(lines[|lines| - 1])
  }

  method ParseLst(text: string) returns (tracks: seq<Track>)
    ensures tracks == ParsedLines(SplitLines(text))
  {
    var lines := SplitLines(text);
    tracks := [];
    for i := 0 to |lines|
      invariant tracks == ParsedLines(lines[..i])
    {
      assert lines[..i + 1][..i] == lines[..i];
      var line := Strip(lines[i]);
      if line == "" || AllDigits(line) { continue; }
      var t := PathAndLength(line);
      if !IsAudio(t.path) { continue; }
      tracks := tracks + [t];
    }
    assert lines[..|lines|] == lines;
  }

  // ---------------------------------------------------------------- the printer

  function Milliseconds(t: Track): nat { if t.ms.Some? then t.ms.value else 0 }

  function PrintedLine(t: Track): string { Decimal(Milliseconds(t)) + "\t" + Backslashed(t.path) }

  /** Every line ended, Windows style. */
  function Ended(lines: seq<string>): string
    decreases |lines|
  {
    if lines == [] then "" else Ended(lines[..|lines| - 1]) + lines[|lines| - 1] + "\r\n"
  }

  function PrintedLines(tracks: seq<Track>): seq<string> {
    seq(|tracks|, i requires 0 <= i < |tracks| => PrintedLine(tracks[i]))
  }

  /** The whole text: the track count, then a line for each track. */
  function Printed(tracks: seq<Track>): string { Ended([Decimal(|tracks|)] + PrintedLines(tracks)) }

  method ExportLst(tracks: seq<Track>) returns (text: string)
    ensures text == Printed(tracks)
  {
    var lines: seq<string> := [];
    for i := 0 to |tracks|
      invariant lines == PrintedLines(tracks[..i])
    {
      lines := lines + [PrintedLine(tracks[i])];
    }
    assert tracks[..|tracks|] == tracks;
    var all := [Decimal(|lines|)] + lines;
    text := "";
    for i := 0 to |all|
      invariant text == Ended(all[..i])
    {
      assert all[..i + 1][..i] == all[..i];
      text := text + all[i] + "\r\n";
    }
    assert all[..|all|] == all;
  }

  // ---------------------------------------------------------------- stripping

  predicate Trimmed(s: string) { s == "" || (!IsSpace(s[0]) && !IsSpace(s[|s| - 1])) }

  lemma {:induction false} StripLeftFacts(s: string)
    ensures var t := StripLeft(s); |t| <= |s| && t == s[|s| - |t|..] && (t != "" ==> !IsSpace(t[0]))
    ensures s != "" && !IsSpace(s[0]) ==> StripLeft(s) == s
  {
    if s != "" && IsSpace(s[0]) { StripLeftFacts(s[1..]); }
  }

  lemma {:induction false} StripRightFacts(s: string)
    ensures var t := StripRight(s); |t| <= |s| && t == s[..|t|] && (t != "" ==> !IsSpace(t[|t| - 1]))
    ensures s != "" && !IsSpace(s[|s| - 1]) ==> StripRight(s) == s
  {
    if s != "" && IsSpace(s[|s| - 1]) { StripRightFacts(s[..|s| - 1]); }
  }

  /** Stripping gives a trimmed part of the text, and changes nothing exactly on trimmed texts. */
  lemma StripFacts(s: string)
    ensures Trimmed(Strip(s)) && (Strip(s) == s <==> Trimmed(s))
    ensures forall c :: c in Strip(s) ==> c in s
  {
    hide StripLeft, StripRight;
    StripLeftFacts(s);
    StripRightFacts(StripLeft(s));
    if s == "" { assert StripLeft(s) == ""; }
  }

  // ---------------------------------------------------------------- lines

  lemma FirstBreak(l: string, rest: string)
    requires forall c :: c in l ==> !IsBreak(c)
    ensures SplitLines(l + "\r\n" + rest) == [l] + SplitLines(rest)
  {
    var text := l + "\r\n" + rest;
    assert forall i :: 0 <= i < |l| ==> text[i] == l[i];
    assert text[|l|] == '\r' && text[|l| + 1] == '\n';
    assert IndexWhere(text, IsBreak) == |l|;
    assert text[..|l|] == l && text[|l| + 2..] == rest;
  }

  lemma EndedLast(init: seq<string>, last: string, rest: string)
    ensures Ended(init + [last]) + rest == Ended(init) + (last + "\r\n" + rest)
  {
    assert (init + [last])[..|init|] == init;
  }

  /** Ended lines that hold no break are the lines read back. */
  lemma {:induction false} SplitEnded(lines: seq<string>, rest: string)
    requires forall l, c :: l in lines && c in l ==> !IsBreak(c)
    ensures SplitLines(Ended(lines) + rest) == lines + SplitLines(rest)
    decreases |lines|
  {
    hide SplitLines, IsBreak;
    if lines == [] {
      assert Ended(lines) + rest == rest;
    } else {
      hide Ended;
      var init, last := lines[..|lines| - 1], lines[|lines| - 1];
      assert lines == init + [last] && last in lines;
      EndedLast(init, last, rest);
      SplitEnded(init, last + "\r\n" + rest);
      FirstBreak(last, rest);
    }
  }

  /** A break that is one character; a carriage return followed by a line feed is one break with it. */
  lemma OneBreak(l: string, b: char, rest: string)
    requires IsBreak(b) && forall c :: c in l ==> !IsBreak(c)
    requires b == '\r' ==> rest == "" || rest[0] != '\n'
    ensures SplitLines(l + [b] + rest) == [l] + SplitLines(rest)
  {
    var text := l + [b] + rest;
    assert forall i :: 0 <= i < |l| ==> text[i] == l[i];
    assert text[|l|] == b;
    assert IndexWhere(text, IsBreak) == |l|;
    assert text[..|l|] == l && text[|l| + 1..] == rest;
    if rest != "" { assert text[|l| + 1] == rest[0]; }
  }

  /** The last line needs no end. */
  lemma LastLine(l: string)
    requires l != "" && forall c :: c in l ==> !IsBreak(c)
    ensures SplitLines(l) == [l]
  {
    assert IndexWhere(l, IsBreak) == |l|;
  }

  /** The ends of line a text may use: the ones Windows, Unix and old Macs write. */
  predicate IsEnd(end: string) { end == "\r\n" || end == "\n" || end == "\r" }

  function EndedBy(lines: seq<string>, end: string): string {
    if lines == [] then "" else lines[0] + end + EndedBy(lines[1..], end)
  }

  /** Whichever of them a playlist was written with, its lines are the same. */
  lemma {:induction false} SplitEndedBy(lines: seq<string>, end: string)
    requires IsEnd(end) && forall l, c :: l in lines && c in l ==> !IsBreak(c)
    ensures SplitLines(EndedBy(lines, end)) == lines
  {
    hide SplitLines;
    if lines == [] {
      NoLines();
    } else {
      var rest := EndedBy(lines[1..], end);
      assert lines[0] in lines;
      assert forall l :: l in lines[1..] ==> l in lines;
      SplitEndedBy(lines[1..], end);
      if end == "\r\n" {
        FirstBreak(lines[0], rest);
      } else {
        EndedByStart(lines[1..], end);
        OneBreak(lines[0], end[0], rest);
        assert lines[0] + end + rest == lines[0] + [end[0]] + rest;
      }
      assert lines == [lines[0]] + lines[1..];
    }
  }

  lemma EndedByStart(lines: seq<string>, end: string)
    requires IsEnd(end) && forall l, c :: l in lines && c in l ==> !IsBreak(c)
    ensures end == "\r" && EndedBy(lines, end) != "" ==> EndedBy(lines, end)[0] != '\n'
  {
    if lines != [] && lines[0] != "" { assert lines[0][0] in lines[0] && lines[0] in lines; }
  }

  lemma {:induction false} LinesHoldNoBreak(text: string)
    ensures forall l, c :: l in SplitLines(text) && c in l ==> !IsBreak(c)
    decreases |text|
  {
    var n := IndexWhere(text, IsBreak);
    if n < |text| {
      LinesHoldNoBreak(text[n + 1..]);
      if n + 1 < |text| { LinesHoldNoBreak(text[n + 2..]); }
    }
  }

  // ---------------------------------------------------------------- each undoes the other

  /** A path the format can carry. */
  predicate Printable(p: string) { IsAudio(p) && Strip(p) == p && forall c :: c in p ==> !IsBreak(c) }

  /** What comes back: slashes turned, and a length only if it was positive. */
  function Normal(t: Track): Track {
    Track(Backslashed(t.path), if Milliseconds(t) > 0 then Some(Milliseconds(t)) else None)
  }

  function Normals(tracks: seq<Track>): seq<Track> {
    seq(|tracks|, i requires 0 <= i < |tracks| => Normal(tracks[i]))
  }

  /** Paths are printed with backslashes, and are otherwise as they were. */
  lemma SlashesTurned(p: string)
    ensures '/' !in Backslashed(p) && |Backslashed(p)| == |p|
    ensures forall i :: 0 <= i < |p| ==> Backslashed(p)[i] == p[i] || (p[i] == '/' && Backslashed(p)[i] == '\\')
  {
  }

  /** Turning slashes does not change what the format can carry. */
  lemma PrintableBackslashed(p: string)
    ensures Printable(Backslashed(p)) <==> Printable(p)
  {
    hide IsAudio, Strip;
    var q := Backslashed(p);
    AudioBackslashed(p);
    StripFacts(p);
    StripFacts(q);
    forall i | 0 <= i < |p| ensures IsBreak(p[i]) == IsBreak(q[i]) && IsSpace(p[i]) == IsSpace(q[i]) {
      SlashPlain(p, i);
    }
    hide IsBreak, IsSpace, Backslashed;
    assert forall i :: 0 <= i < |p| ==> p[i] in p && q[i] in q;
  }

  lemma SlashPlain(p: string, i: nat)
    requires i < |p|
    ensures IsBreak(p[i]) == IsBreak(Backslashed(p)[i]) && IsSpace(p[i]) == IsSpace(Backslashed(p)[i])
  {
  }

  lemma AudioBackslashed(p: string)
    ensures IsAudio(Backslashed(p)) == IsAudio(p)
  {
    BackslashedName(p);
  }

  lemma AudioNotEmpty(p: string)
    requires IsAudio(p)
    ensures p != ""
  {
    assert Lowered("") == "";
  }

  /** A number, a tab and a trimmed path are taken apart again. */
  lemma PathAndLengthOf(n: nat, q: string)
    requires Trimmed(q)
    ensures PathAndLength(Decimal(n) + "\t" + q) == Track(q, if n > 0 then Some(n) else None)
  {
    hide Decimal, Strip, Value, IsSpace;
    var d := Decimal(n);
    var line := d + "\t" + q;
    DecimalValue(n);
    DigitsTrimmed(d);
    StripFacts(d);
    StripFacts(q);
    assert forall i :: 0 <= i < |d| ==> line[i] == d[i] && d[i] in d;
    assert line[|d|] == '\t';
    assert IndexWhere(line, IsTab) == |d|;
    assert line[..|d|] == d && line[|d| + 1..] == q;
  }

  lemma DigitsTrimmed(d: string)
    requires AllDigits(d)
    ensures Trimmed(d)
  {
    assert d[0] in d && d[|d| - 1] in d;
  }

  /** A printed line of a printable track parses to that track. */
  lemma LineRoundTrip(t: Track)
    requires Printable(t.path)
    ensures ParsedLine(PrintedLine(t)) == [Normal(t)]
    ensures forall c :: c in PrintedLine(t) ==> !IsBreak(c)
  {
    hide Decimal, Strip, PathAndLength, IsAudio, Value, Backslashed, IsSpace, IsBreak;
    var n, q := Milliseconds(t), Backslashed(t.path);
    var d := Decimal(n);
    var line := PrintedLine(t);
    PrintableBackslashed(t.path);
    AudioNotEmpty(q);
    StripFacts(q);
    DecimalValue(n);
    DigitsTrimmed(d);
    assert line[0] == d[0] && line[|line| - 1] == q[|q| - 1];
    StripFacts(line);
    assert line[|d|] == '\t' && line[|d|] in line;
    PathAndLengthOf(n, q);
    DigitsNoBreak(d);
    TabNoBreak();
  }

  lemma DigitsNoBreak(d: string)
    requires AllDigits(d)
    ensures forall c :: c in d ==> !IsBreak(c)
  {}

  lemma TabNoBreak()
    ensures !IsBreak('\t')
  {}

  lemma {:induction false} ParsedPrinted(tracks: seq<Track>)
    requires forall t :: t in tracks ==> Printable(t.path)
    ensures ParsedLines(PrintedLines(tracks)) == Normals(tracks)
    decreases |tracks|
  {
    hide PrintedLine, ParsedLine, Normal, Printable;
    if tracks != [] {
      var init, last := tracks[..|tracks| - 1], tracks[|tracks| - 1];
      assert last in tracks;
      ParsedPrinted(init);
      LineRoundTrip(last);
      assert PrintedLines(tracks)[..|init|] == PrintedLines(init);
      assert Normals(tracks) == Normals(init) + [Normal(last)];
    }
  }

  lemma {:induction false} ParsedConcat(a: seq<string>, b: seq<string>)
    ensures ParsedLines(a + b) == ParsedLines(a) + ParsedLines(b)
    decreases |b|
  {
    hide ParsedLine;
    if b == [] {
      assert a + b == a;
    } else {
      ParsedConcat(a, b[..|b| - 1]);
      assert (a + b)[..|a + b| - 1] == a + b[..|b| - 1];
    }
  }

  /** Lines not of the printer's making. A line with no tab is a path; so is one whose first part is no
      number; a negative number, as the original program writes now and then, is a length not known. */
  lemma ForeignLine(first: string, q: string)
    requires Trimmed(q) && forall c :: c in first ==> !IsTab(c)
    ensures (forall c :: c in q ==> !IsTab(c)) ==> PathAndLength(q) == Track(q, None)
    ensures !IsInteger(Strip(first)) ==> PathAndLength(first + "\t" + q) == Track(first + "\t" + q, None)
    ensures IsInteger(Strip(first)) && !AllDigits(Strip(first)) ==> PathAndLength(first + "\t" + q) == Track(q, None)
  {
    hide Strip, Value, IsSpace;
    var line := first + "\t" + q;
    StripFacts(q);
    assert forall i :: 0 <= i < |first| ==> line[i] == first[i] && first[i] in first;
    assert line[|first|] == '\t';
    assert IndexWhere(line, IsTab) == |first|;
    assert line[..|first|] == first && line[|first| + 1..] == q;
    assert forall i :: 0 <= i < |q| ==> q[i] in q;
  }

  /** The count line is skipped. */
  lemma HeaderSkipped(n: nat)
    ensures ParsedLines([Decimal(n)]) == []
    ensures forall c :: c in Decimal(n) ==> !IsBreak(c)
  {
    hide Decimal, Strip, Value, IsSpace, IsBreak, PathAndLength;
    DecimalValue(n);
    DigitsTrimmed(Decimal(n));
    DigitsNoBreak(Decimal(n));
    StripFacts(Decimal(n));
    assert [Decimal(n)][..0] == [];
    assert ParsedLine(Decimal(n)) == [];
  }

  lemma PrintableParses(tracks: seq<Track>)
    requires forall t :: t in tracks ==> Printable(t.path)
    ensures ParsedLines(SplitLines(Printed(tracks))) == Normals(tracks)
  {
    hide Decimal, PrintedLine, ParsedLines, SplitLines, Ended, IsBreak, Normals, Printable;
    var head, body := [Decimal(|tracks|)], PrintedLines(tracks);
    HeaderSkipped(|tracks|);
    forall t | t in tracks ensures forall c :: c in PrintedLine(t) ==> !IsBreak(c) { LineRoundTrip(t); }
    SplitEnded(head + body, "");
    NoLines();
    assert Ended(head + body) + "" == Printed(tracks);
    assert (head + body) + [] == head + body;
    ParsedConcat(head, body);
    ParsedPrinted(tracks);
  }

  lemma NoLines()
    ensures SplitLines("") == []
  {}

  /** The first line of the text says how many tracks there are. */
  lemma HeaderCounts(tracks: seq<Track>)
    requires forall t :: t in tracks ==> Printable(t.path)
    ensures
      var lines := SplitLines(Printed(tracks));
      |lines| == |tracks| + 1 && AllDigits(lines[0]) && Value(lines[0]) == |tracks|
  {
    hide Decimal, PrintedLine, SplitLines, Ended, IsBreak, Printable, Value;
    var head, body := [Decimal(|tracks|)], PrintedLines(tracks);
    HeaderSkipped(|tracks|);
    DecimalValue(|tracks|);
    forall t | t in tracks ensures forall c :: c in PrintedLine(t) ==> !IsBreak(c) { LineRoundTrip(t); }
    SplitEnded(head + body, "");
    NoLines();
    assert Ended(head + body) + "" == Printed(tracks);
    assert (head + body) + [] == head + body;
  }

  lemma ParsedLinePrintable(raw: string)
    requires forall c :: c in raw ==> !IsBreak(c)
    ensures forall t :: t in ParsedLine(raw) ==> Printable(t.path)
  {
    hide IsAudio, Strip, IsBreak, Value, IsInteger;
    var line := Strip(raw);
    StripFacts(raw);
    StripFacts(line);
    var n := IndexWhere(line, IsTab);
    if n < |line| {
      StripFacts(line[n + 1..]);
      StripFacts(Strip(line[n + 1..]));
    }
  }

  /** Every track the parser gives has a printable path. */
  lemma {:induction false} ParsedLinesPrintable(lines: seq<string>)
    requires forall l, c :: l in lines && c in l ==> !IsBreak(c)
    ensures forall t :: t in ParsedLines(lines) ==> Printable(t.path)
    decreases |lines|
  {
    hide IsBreak, Printable, ParsedLine;
    if lines != [] {
      var last := lines[|lines| - 1];
      assert last in lines;
      ParsedLinesPrintable(lines[..|lines| - 1]);
      ParsedLinePrintable(last);
    }
  }

  /** Parsing the printed text gives the same tracks back exactly when every path is printable. */
  lemma PrintThenParse(tracks: seq<Track>)
    ensures ParsedLines(SplitLines(Printed(tracks))) == Normals(tracks) <==>
            forall t :: t in tracks ==> Printable(t.path)
  {
    hide Printed, ParsedLines, SplitLines, Printable, Backslashed, IsBreak;
    if forall t :: t in tracks ==> Printable(t.path) {
      PrintableParses(tracks);
    }
    if ParsedLines(SplitLines(Printed(tracks))) == Normals(tracks) {
      LinesHoldNoBreak(Printed(tracks));
      ParsedLinesPrintable(SplitLines(Printed(tracks)));
      forall t | t in tracks ensures Printable(t.path) {
        var i :| 0 <= i < |tracks| && tracks[i] == t;
        assert Normals(tracks)[i] in Normals(tracks);
        PrintableBackslashed(t.path);
      }
    }
  }

  /** Whatever text a playlist came from, what the parser made of it survives printing and parsing again, up to slashes. */
  lemma ParseThenPrint(text: string)
    ensures var tracks := ParsedLines(SplitLines(text));
            ParsedLines(SplitLines(Printed(tracks))) == Normals(tracks)
  {
    hide Printed, ParsedLines, SplitLines, Printable, IsBreak;
    LinesHoldNoBreak(text);
    ParsedLinesPrintable(SplitLines(text));
    PrintThenParse(ParsedLines(SplitLines(text)));
  }

  /** Printing what came back gives the same text. */
  lemma PrintAgain(tracks: seq<Track>)
    requires forall t :: t in tracks ==> Printable(t.path)
    ensures Printed(ParsedLines(SplitLines(Printed(tracks)))) == Printed(tracks)
  {
    hide ParsedLines, SplitLines, Ended, Printable, Decimal;
    PrintableParses(tracks);
    forall i | 0 <= i < |tracks| ensures PrintedLine(Normals(tracks)[i]) == PrintedLine(tracks[i]) {
      assert Backslashed(Backslashed(tracks[i].path)) == Backslashed(tracks[i].path);
    }
    assert PrintedLines(Normals(tracks)) == PrintedLines(tracks);
  }
}
