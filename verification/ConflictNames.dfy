/** The name a conflict copy gets, and reading it back to the note it belongs to. */
module ConflictNames {

  import opened Options

  /** The last position of `c`, or -1. */
  function LastIndexOf(s: string, c: char): (i: int)
    ensures -1 <= i < |s|
    ensures i >= 0 ==> s[i] == c
    ensures forall j :: i < j < |s| ==> s[j] != c
  {
    if s == "" then -1 else if s[|s| - 1] == c then |s| - 1 else LastIndexOf(s[..|s| - 1], c)
  }

  lemma {:induction false} LastIndexOfIs(s: string, c: char, i: int)
    requires -1 <= i < |s| && (i >= 0 ==> s[i] == c)
    requires forall j :: i < j < |s| ==> s[j] != c
    ensures LastIndexOf(s, c) == i
  {
  }

  // ----- writing --------------------------------------------------------------------------------

  function Dir(path: string): string {
    path[..LastIndexOf(path, '/') + 1]
  }

  function Name(path: string): string {
    path[LastIndexOf(path, '/') + 1..]
  }

  /** A leading dot is part of the stem, so `.hidden` has no extension. */
  function Stem(name: string): string {
    var dot := LastIndexOf(name, '.');
    if dot <= 0 then name else name[..dot]
  }

  function Ext(name: string): string {
    var dot := LastIndexOf(name, '.');
    if dot <= 0 then "" else name[dot..]
  }

  /** `conflictCopyName`; `date` is the ten characters of an ISO day. */
  function ConflictCopyName(path: string, device: string, date: string): (copy: string)
    ensures |copy| == |path| + |device| + |date| + 13
  {
    var name := Name(path);
    assert |Dir(path)| + |name| == |path| && |Stem(name)| + |Ext(name)| == |name|;
    Dir(path) + CopyOf(Stem(name), Ext(name), device, date)
  }

  /** The name of the copy of a note called `stem + ext`. */
  function CopyOf(stem: string, ext: string, device: string, date: string): string {
    stem + " (conflict " + date + " " + device + ")" + ext
  }

  // ----- reading --------------------------------------------------------------------------------

  predicate Digit(c: char) {
    '0' <= c <= '9'
  }

  predicate IsDate(s: string) {
    && |s| == 10
    && Digit(s[0]) && Digit(s[1]) && Digit(s[2]) && Digit(s[3]) && s[4] == '-'
    && Digit(s[5]) && Digit(s[6]) && s[7] == '-' && Digit(s[8]) && Digit(s[9])
  }

  const MARK := 22

  /** ` (conflict dddd-dd-dd ` at position `i`. */
  predicate MarkerAt(s: string, i: nat) {
    && i + MARK <= |s|
    && s[i] == ' ' && s[i + 1] == '(' && s[i + 2] == 'c' && s[i + 3] == 'o' && s[i + 4] == 'n' && s[i + 5] == 'f'
    && s[i + 6] == 'l' && s[i + 7] == 'i' && s[i + 8] == 'c' && s[i + 9] == 't' && s[i + 10] == ' '
    && IsDate(s[i + 11..i + 21]) && s[i + 21] == ' '
  }

  predicate Terminator(c: char) {
    c == '\n' || c == '\r' || c == '\U{2028}' || c == '\U{2029}'
  }

  /** What `.*` may run over. */
  predicate OneLine(s: string) {
    forall i :: 0 <= i < |s| ==> !Terminator(s[i])
  }

  predicate IsExt(s: string) {
    s == "" || (s[0] == '.' && forall i :: 1 <= i < |s| ==> s[i] != '.' && s[i] != '/' && s[i] != '(' && s[i] != ')')
  }

  /** One way the pattern can match: a first group of length `p` and the closing bracket at `q`. */
  predicate Parses(name: string, p: nat, q: int) {
    && MarkerAt(name, p) && p + MARK <= q < |name| && name[q] == ')'
    && OneLine(name[..p]) && OneLine(name[p + MARK..q])
    && IsExt(name[q + 1..])
  }

  /** The shortest first group at or after `p` that matches, with the last closing bracket. */
  function FirstParse(name: string, p: nat): (r: Option<nat>)
    ensures r.Some? ==> p <= r.value && Parses(name, r.value, LastIndexOf(name, ')'))
    decreases |name| - p
  {
    if p >= |name| then None
    else if Parses(name, p, LastIndexOf(name, ')')) then Some(p)
    else FirstParse(name, p + 1)
  }

  /** What the pattern keeps of a name: its first group and its extension. */
  function OriginalName(name: string): Option<string> {
    match FirstParse(name, 0)
    case None => None
    case Some(p) => Some(name[..p] + name[LastIndexOf(name, ')') + 1..])
  }

  /** `originalOf`. */
  function OriginalOf(copy: string): Option<string> {
    match OriginalName(Name(copy))
    case None => None
    case Some(name) => Some(Dir(copy) + name)
  }

  lemma {:induction false} ParsesEndAtTheLastBracket(name: string, p: nat, q: int)
    requires Parses(name, p, q)
    ensures q == LastIndexOf(name, ')')
  {
  }

  lemma {:induction false} FirstParseIsLeast(name: string, from: nat, p: nat)
    requires from <= p && Parses(name, p, LastIndexOf(name, ')'))
    ensures FirstParse(name, from).Some? && FirstParse(name, from).value <= p
    decreases p - from
  {
    if from < p && !Parses(name, from, LastIndexOf(name, ')')) {
      FirstParseIsLeast(name, from + 1, p);
    }
  }

  /** The reading is the one the pattern prescribes. Whenever the pattern can match at all there is an
      answer; its lazy first group is the shortest any match has, and its closing bracket the last. */
  lemma {:induction false} ReadsAsThePatternDoes(name: string, p: nat, q: int)
    requires Parses(name, p, q)
    ensures FirstParse(name, 0).Some? && FirstParse(name, 0).value <= p
    ensures OriginalName(name) == Some(name[..FirstParse(name, 0).value] + name[q + 1..])
  {
    ParsesEndAtTheLastBracket(name, p, q);
    FirstParseIsLeast(name, 0, p);
  }

  // ----- the round trip -------------------------------------------------------------------------

  predicate NoBrackets(s: string) {
    forall i :: 0 <= i < |s| ==> s[i] != '(' && s[i] != ')'
  }

  ghost predicate HoldsMarker(s: string) {
    exists i: nat :: MarkerAt(s, i)
  }

  /** When a copy's name reads back to its note. */
  ghost predicate ReadsBack(path: string, device: string) {
    var name := Name(path);
    && '/' !in device
    && OneLine(device) && OneLine(Stem(name))
    && NoBrackets(Ext(name))
    && !HoldsMarker(Stem(name) + " ")
  }

  lemma {:induction false} StemAndExt(path: string)
    ensures var name := Name(path);
            && Stem(name) + Ext(name) == name && Dir(path) + name == path
            && '/' !in name
            && (Ext(name) != "" ==> Ext(name)[0] == '.' && forall i :: 1 <= i < |Ext(name)| ==> Ext(name)[i] != '.' && Ext(name)[i] != '/')
  {
  }

  /** The characters of a copy's name, by position. */
  lemma {:induction false} CopyLayout(stem: string, ext: string, device: string, date: string)
    requires IsDate(date)
    ensures var n := CopyOf(stem, ext, device, date);
            var q := |stem| + MARK + |device|;
            && |n| == q + 1 + |ext|
            && n[..|stem|] == stem && MarkerAt(n, |stem|) && n[..|stem| + 1] == stem + " "
            && n[|stem| + MARK..q] == device && n[q] == ')' && n[q + 1..] == ext
  {
    var n := CopyOf(stem, ext, device, date);
    assert n[|stem| + 11..|stem| + 21] == date;
    assert n == stem + " (conflict " + (date + (" " + device + ")" + ext));
    var mid := n[|stem|..|stem| + 11];
    assert mid == " (conflict ";
    assert forall i :: 0 <= i < 11 ==> n[|stem| + i] == " (conflict "[i];
  }

  /** With a plain extension, every reading of the copy's name ends at the device's own bracket. */
  lemma {:induction false} LastBracketOfCopy(stem: string, ext: string, device: string, date: string)
    requires IsDate(date) && NoBrackets(ext)
    ensures LastIndexOf(CopyOf(stem, ext, device, date), ')') == |stem| + MARK + |device|
  {
    var n := CopyOf(stem, ext, device, date);
    var q := |stem| + MARK + |device|;
    CopyLayout(stem, ext, device, date);
    forall j | q < j < |n| ensures n[j] != ')' {
      assert n[j] == ext[j - q - 1];
    }
    LastIndexOfIs(n, ')', q);
  }

  lemma {:induction false} OneLineConcat(a: string, b: string)
    ensures OneLine(a + b) <==> OneLine(a) && OneLine(b)
  {
    if OneLine(a + b) {
      forall i | 0 <= i < |a| ensures !Terminator(a[i]) {
        assert a[i] == (a + b)[i];
      }
      forall i | 0 <= i < |b| ensures !Terminator(b[i]) {
        assert b[i] == (a + b)[|a| + i];
      }
    }
  }

  lemma {:induction false} OneLineSlice(s: string, lo: nat, hi: nat)
    requires lo <= hi <= |s| && OneLine(s)
    ensures OneLine(s[lo..hi])
  {
  }

  /** The copy's name up to its closing bracket is one line exactly when stem and device are. */
  lemma {:induction false} CopyIsOneLine(stem: string, ext: string, device: string, date: string)
    requires IsDate(date)
    ensures OneLine(CopyOf(stem, ext, device, date)[..|stem| + MARK + |device|]) <==> OneLine(stem) && OneLine(device)
  {
    var n := CopyOf(stem, ext, device, date);
    CopyLayout(stem, ext, device, date);
    var marker := " (conflict " + (date + " ");
    assert OneLine(" (conflict ") && OneLine(date) && OneLine(" ");
    OneLineConcat(date, " ");
    OneLineConcat(" (conflict ", date + " ");
    OneLineConcat(marker, device);
    OneLineConcat(stem, marker + device);
    assert n[..|stem| + MARK + |device|] == stem + (marker + device);
  }

  /** A reading of the copy's name, by where its first group ends. */
  lemma {:induction false} ParsesOfCopy(stem: string, ext: string, device: string, date: string, p: nat)
    requires IsDate(date) && IsExt(ext) && p <= |stem|
    ensures Parses(CopyOf(stem, ext, device, date), p, |stem| + MARK + |device|) ==>
              MarkerAt(CopyOf(stem, ext, device, date), p)
    ensures p == |stem| ==> (Parses(CopyOf(stem, ext, device, date), p, |stem| + MARK + |device|) <==> OneLine(stem) && OneLine(device))
    ensures OneLine(stem) && OneLine(device) && MarkerAt(CopyOf(stem, ext, device, date), p) && p + MARK <= |stem| + MARK + |device|
            ==> Parses(CopyOf(stem, ext, device, date), p, |stem| + MARK + |device|)
  {
    var n := CopyOf(stem, ext, device, date);
    var q := |stem| + MARK + |device|;
    CopyLayout(stem, ext, device, date);
    if OneLine(stem) && OneLine(device) && p + MARK <= q {
      CopyIsOneLine(stem, ext, device, date);
      OneLineSlice(n[..q], 0, p);
      OneLineSlice(n[..q], p + MARK, q);
      assert n[..q][0..p] == n[..p] && n[..q][p + MARK..q] == n[p + MARK..q];
    }
  }

  lemma {:induction false} FirstParseIs(name: string, from: nat, s: nat)
    requires from <= s
    ensures FirstParse(name, from) == Some(s)
            <==> Parses(name, s, LastIndexOf(name, ')')) && forall p | from <= p < s :: !Parses(name, p, LastIndexOf(name, ')'))
    decreases s - from
  {
    if from < s {
      FirstParseIs(name, from + 1, s);
    }
  }

  lemma {:induction false} FirstParseBy(n: string, s: nat, q: int, good: bool, marked: bool)
    requires LastIndexOf(n, ')') == q
    requires Parses(n, s, q) <==> good
    requires good ==> (marked <==> exists p :: 0 <= p < s && Parses(n, p, q))
    ensures FirstParse(n, 0) == Some(s) <==> good && !marked
  {
    FirstParseIs(n, 0, s);
  }

  /** For a plain extension, the first reading takes exactly the stem when stem and device are one line
      and no earlier marker stands in the way. */
  lemma {:induction false} FirstParseOfCopy(stem: string, ext: string, device: string, date: string)
    requires IsDate(date) && IsExt(ext)
    ensures FirstParse(CopyOf(stem, ext, device, date), 0) == Some(|stem|)
            <==> OneLine(stem) && OneLine(device) && !HoldsMarker(stem + " ")
  {
    var n := CopyOf(stem, ext, device, date);
    var q := |stem| + MARK + |device|;
    LastBracketOfCopy(stem, ext, device, date);
    ParsesOfCopy(stem, ext, device, date, |stem|);
    var good, marked := OneLine(stem) && OneLine(device), HoldsMarker(stem + " ");
    if good {
      NoEarlierParse(stem, ext, device, date, n, q);
    }
    FirstParseBy(n, |stem|, q, good, marked);
  }

  lemma {:induction false} NoEarlierParse(stem: string, ext: string, device: string, date: string, n: string, q: int)
    requires IsDate(date) && IsExt(ext) && OneLine(stem) && OneLine(device)
    requires n == CopyOf(stem, ext, device, date) && q == |stem| + MARK + |device|
    ensures HoldsMarker(stem + " ") <==> exists p :: 0 <= p < |stem| && Parses(n, p, q)
  {
    if p: nat :| MarkerAt(stem + " ", p) {
      EarlierParses(stem, ext, device, date, p);
    }
    if p: nat :| p < |stem| && Parses(n, p, q) {
      EarlierParses(stem, ext, device, date, p);
    }
  }

  /** A marker that starts inside the stem ends with it, or with the space that follows it. */
  lemma {:induction false} MarkersDoNotStraddle(stem: string, ext: string, device: string, date: string, p: nat)
    requires IsDate(date) && p < |stem|
    ensures MarkerAt(CopyOf(stem, ext, device, date), p) <==> MarkerAt(stem + " ", p)
  {
    var n := CopyOf(stem, ext, device, date);
    CopyLayout(stem, ext, device, date);
    var s := |stem|;
    var h := stem + " ";
    assert n[s] == ' ' && n[s + 1] == '(';
    if MarkerAt(n, p) {
      var day := n[p + 11..p + 21];
      assert forall i :: 0 <= i < 10 ==> n[p + 11 + i] == day[i];
      assert p + MARK <= s + 1;
    }
    if p + MARK <= s + 1 {
      assert forall i :: 0 <= i < |h| ==> n[i] == h[i];
      assert n[p + 11..p + 21] == h[p + 11..p + 21];
    }
  }

  lemma {:induction false} EarlierParses(stem: string, ext: string, device: string, date: string, p: nat)
    requires IsDate(date) && IsExt(ext) && p < |stem| && OneLine(stem) && OneLine(device)
    ensures Parses(CopyOf(stem, ext, device, date), p, |stem| + MARK + |device|) <==> MarkerAt(stem + " ", p)
  {
    ParsesOfCopy(stem, ext, device, date, p);
    MarkersDoNotStraddle(stem, ext, device, date, p);
  }

  /** The name of a copy keeps the note's name exactly under these conditions. */
  lemma {:induction false} NameRoundTrip(stem: string, ext: string, device: string, date: string)
    requires IsDate(date)
    requires ext != "" ==> ext[0] == '.' && forall i :: 1 <= i < |ext| ==> ext[i] != '.' && ext[i] != '/'
    ensures OriginalName(CopyOf(stem, ext, device, date)) == Some(stem + ext)
            <==> OneLine(stem) && OneLine(device) && NoBrackets(ext) && !HoldsMarker(stem + " ")
  {
    var n := CopyOf(stem, ext, device, date);
    CopyLayout(stem, ext, device, date);
    if NoBrackets(ext) {
      LastBracketOfCopy(stem, ext, device, date);
      FirstParseOfCopy(stem, ext, device, date);
      if FirstParse(n, 0).Some? {
        var p := FirstParse(n, 0).value;
        assert |n[..p] + ext| == p + |ext|;
      }
    } else {
      BracketedExtIsLost(n, |stem|, |stem| + MARK + |device|);
    }
  }

  lemma {:induction false} BracketedExtIsLost(n: string, s: nat, q: nat)
    requires s < q < |n| && n[s] == ' ' && n[q] == ')'
    requires var ext := n[q + 1..]; !NoBrackets(ext) && ext[0] == '.' && forall i :: 1 <= i < |ext| ==> ext[i] != '.'
    ensures OriginalName(n) != Some(n[..s] + n[q + 1..])
  {
    var ext := n[q + 1..];
    var l := LastIndexOf(n, ')');
    assert !IsExt(ext);
    assert q < l < |n| - 1 ==> n[l + 1] == ext[l - q];
    assert (n[..s] + ext)[s] == '.';
    match FirstParse(n, 0)
    case None =>
    case Some(p) =>
      assert p > s ==> n[..p][s] == ' ';
      assert n[l + 1..] == [];
      assert n[..p] + n[l + 1..] == n[..p];
  }

  predicate Slashless(s: string) {
    forall i :: 0 <= i < |s| ==> s[i] != '/'
  }

  lemma {:induction false} SlashlessCopy(stem: string, ext: string, device: string, date: string)
    requires IsDate(date) && Slashless(stem) && Slashless(ext) && Slashless(device)
    ensures Slashless(CopyOf(stem, ext, device, date))
  {
  }

  lemma {:induction false} LastSlash(dir: string, n: string)
    requires dir == "" || dir[|dir| - 1] == '/'
    requires Slashless(n)
    ensures Dir(dir + n) == dir && Name(dir + n) == n
  {
    LastIndexOfIs(dir + n, '/', |dir| - 1);
  }

  /** Without a slash in the device, a copy lies beside its note. */
  lemma {:induction false} CopyLiesBeside(path: string, device: string, date: string)
    requires IsDate(date) && Slashless(device)
    ensures var name := Name(path); var copy := ConflictCopyName(path, device, date);
            Dir(copy) == Dir(path) && Name(copy) == CopyOf(Stem(name), Ext(name), device, date)
  {
    var name := Name(path);
    assert Slashless(name);
    var n := CopyOf(Stem(name), Ext(name), device, date);
    SlashlessCopy(Stem(name), Ext(name), device, date);
    LastSlash(Dir(path), n);
  }

  lemma {:induction false} SlashedDeviceIsLost(path: string, device: string, date: string, i: nat)
    requires IsDate(date) && i < |device| && device[i] == '/'
    ensures OriginalOf(ConflictCopyName(path, device, date)) != Some(path)
  {
    var copy := ConflictCopyName(path, device, date);
    var dir, name := Dir(path), Name(path);
    var stem, ext := Stem(name), Ext(name);
    var n := CopyOf(stem, ext, device, date);
    CopyLayout(stem, ext, device, date);
    var at := |stem| + MARK + i;
    assert n[at] == n[|stem| + MARK..|stem| + MARK + |device|][i];
    assert copy[|dir| + at] == '/';
    DeeperDirectory(path, copy, |dir| + at);
  }

  lemma {:induction false} LaterSlash(dir: string, kept: string, path: string)
    requires |dir| > 0 && dir[|dir| - 1] == '/' && LastIndexOf(path, '/') < |dir| - 1
    ensures dir + kept != path
  {
    assert (dir + kept)[|dir| - 1] == '/';
  }

  lemma {:induction false} DeeperDirectory(path: string, copy: string, at: nat)
    requires LastIndexOf(path, '/') < at < |copy| && copy[at] == '/'
    ensures OriginalOf(copy) != Some(path)
  {
    if OriginalName(Name(copy)).Some? {
      LaterSlash(Dir(copy), OriginalName(Name(copy)).value, path);
    }
  }

  /** The name of a copy is read back to its note exactly under `ReadsBack`. */
  lemma {:induction false} RoundTrip(path: string, device: string, date: string)
    requires IsDate(date)
    ensures OriginalOf(ConflictCopyName(path, device, date)) == Some(path) <==> ReadsBack(path, device)
  {
    var dir, name := Dir(path), Name(path);
    var stem, ext := Stem(name), Ext(name);
    StemAndExt(path);
    if i :| 0 <= i < |device| && device[i] == '/' {
      SlashedDeviceIsLost(path, device, date, i);
    } else {
      CopyLiesBeside(path, device, date);
      NameRoundTrip(stem, ext, device, date);
      var copy := ConflictCopyName(path, device, date);
      match OriginalName(Name(copy))
      case None =>
      case Some(kept) =>
        assert (dir + kept)[|dir|..] == kept && path[|dir|..] == stem + ext;
    }
  }

  // ----- whole names ------------------------------------------------------------------------------

  predicate IsDir(dir: string) {
    dir == "" || dir[|dir| - 1] == '/'
  }

  /** The first ten characters of an ISO time. */
  ghost predicate IsDay(s: string) {
    |s| == 10 && forall i :: 0 <= i < 10 ==> if i == 4 || i == 7 then s[i] == '-' else '0' <= s[i] <= '9'
  }

  lemma {:induction false} DayIsDate(s: string)
    ensures IsDay(s) <==> IsDate(s)
  {
    if IsDate(s) {
      forall i | 0 <= i < 10 ensures if i == 4 || i == 7 then s[i] == '-' else '0' <= s[i] <= '9' {
      }
    }
  }

  /** Something in the text already looks like the mark of a copy. */
  ghost predicate Marked(s: string) {
    exists a, day, rest :: IsDay(day) && s == a + (" (conflict " + day + " " + rest)
  }

  lemma {:induction false} MarkedIs(s: string)
    ensures Marked(s) <==> HoldsMarker(s)
  {
    if i: nat :| MarkerAt(s, i) {
      MarkerIs(s, i);
      DayIsDate(s[i + 11..i + 21]);
      MarkIsThere(s, i);
    }
    if a, day, rest :| IsDay(day) && s == a + (" (conflict " + day + " " + rest) {
      DayIsDate(day);
      MarkAt(a, day, rest);
    }
  }

  lemma {:induction false} MarkIsThere(s: string, i: nat)
    requires i + MARK <= |s| && IsDay(s[i + 11..i + 21]) && s[i..i + 11] == " (conflict " && s[i + 21..i + MARK] == " "
    ensures Marked(s)
  {
    hide IsDay;
    UpTo(s, i, i + 11);
    UpTo(s, i + 11, i + 21);
    UpTo(s, i + 21, i + MARK);
    UpTo(s, i + MARK, |s|);
    var a, day, rest := s[..i], s[i + 11..i + 21], s[i + MARK..];
    assert s[i + MARK..|s|] == rest && s[..|s|] == s;
    assert s == a + " (conflict " + day + " " + rest;
    Assoc(a, " (conflict ", day);
    Assoc(a, " (conflict " + day, " ");
    Assoc(a, " (conflict " + day + " ", rest);
  }

  lemma {:induction false} MarkAt(a: string, day: string, rest: string)
    requires IsDate(day)
    ensures MarkerAt(a + (" (conflict " + day + " " + rest), |a|)
  {
    var mark := " (conflict " + day + " " + rest;
    assert mark == " (conflict " + (day + (" " + rest));
    assert forall i :: 0 <= i < 11 ==> mark[i] == " (conflict "[i];
    assert mark[11..21] == day && mark[21] == ' ';
    var s := a + mark;
    assert forall i :: 0 <= i < |mark| ==> s[|a| + i] == mark[i];
    assert s[|a| + 11..|a| + 21] == mark[11..21];
  }

  /** How a name is cut: at its last dot, unless that is its first character or there is none. */
  predicate CutAt(stem: string, ext: string) {
    && stem != "" && Slashless(stem)
    && if ext == "" then forall i :: 1 <= i < |stem| ==> stem[i] != '.'
       else ext[0] == '.' && Slashless(ext) && forall i :: 1 <= i < |ext| ==> ext[i] != '.'
  }

  lemma {:induction false} CutIs(stem: string, ext: string)
    requires CutAt(stem, ext)
    ensures Stem(stem + ext) == stem && Ext(stem + ext) == ext
  {
    if ext != "" {
      LastIndexOfIs(stem + ext, '.', |stem|);
    } else {
      assert stem + ext == stem;
    }
  }

  lemma {:induction false} PathIsCut(dir: string, stem: string, ext: string)
    requires IsDir(dir) && CutAt(stem, ext)
    ensures var path := dir + stem + ext; Dir(path) == dir && Name(path) == stem + ext
    ensures Stem(Name(dir + stem + ext)) == stem && Ext(Name(dir + stem + ext)) == ext
  {
    assert dir + stem + ext == dir + (stem + ext);
    LastSlash(dir, stem + ext);
    CutIs(stem, ext);
  }

  lemma {:induction false} Assoc(a: string, b: string, c: string)
    ensures (a + b) + c == a + (b + c)
  {
  }

  lemma {:induction false} Regroup(a: string, b: string, c: string, d: string, e: string, f: string, g: string, h: string)
    ensures a + b + c + d + e + f + g + h == a + (b + c + d + e + f + g + h)
  {
    Assoc(a, b, c);
    Assoc(a, b + c, d);
    Assoc(a, b + c + d, e);
    Assoc(a, b + c + d + e, f);
    Assoc(a, b + c + d + e + f, g);
    Assoc(a, b + c + d + e + f + g, h);
  }

  /** A conflict copy keeps the note's folder and its extension, and names the day and the device. */
  lemma {:induction false} CopyIsNamed(dir: string, stem: string, ext: string, device: string, date: string)
    requires IsDir(dir) && CutAt(stem, ext)
    ensures ConflictCopyName(dir + stem + ext, device, date) == dir + stem + " (conflict " + date + " " + device + ")" + ext
  {
    hide Dir, Name, Stem, Ext;
    PathIsCut(dir, stem, ext);
    Regroup(dir, stem, " (conflict ", date, " ", device, ")", ext);
  }

  lemma {:induction false} PlainIs(stem: string, ext: string, device: string)
    ensures OneLine(device) && OneLine(stem) <==> forall c :: c in device + stem ==> c != '\n' && c != '\r' && c != '\U{2028}' && c != '\U{2029}'
    ensures NoBrackets(ext) <==> '(' !in ext && ')' !in ext
  {
    OneLineConcat(device, stem);
    OneLineIs(device + stem);
    if NoBrackets(ext) {
      assert forall i :: 0 <= i < |ext| ==> ext[i] != '(' && ext[i] != ')';
    } else {
      var i :| 0 <= i < |ext| && (ext[i] == '(' || ext[i] == ')');
    }
  }

  lemma {:induction false} OneLineIs(s: string)
    ensures OneLine(s) <==> forall c :: c in s ==> c != '\n' && c != '\r' && c != '\U{2028}' && c != '\U{2029}'
  {
    if !OneLine(s) {
      var i :| 0 <= i < |s| && Terminator(s[i]);
      assert s[i] in s;
    } else {
      forall c | c in s ensures !Terminator(c) {
        var i :| 0 <= i < |s| && s[i] == c;
      }
    }
  }

  /** And such a name reads back to the note exactly where nothing in it can be taken for something else. */
  lemma {:induction false} NamedCopyReadsBack(dir: string, stem: string, ext: string, device: string, date: string)
    requires IsDir(dir) && CutAt(stem, ext) && IsDay(date)
    ensures OriginalOf(dir + stem + " (conflict " + date + " " + device + ")" + ext) == Some(dir + stem + ext)
            <==> && '/' !in device && '(' !in ext && ')' !in ext && !Marked(stem + " ")
                 && forall c :: c in device + stem ==> c != '\n' && c != '\r' && c != '\U{2028}' && c != '\U{2029}'
  {
    hide IsDay, IsDate, OneLine, NoBrackets, HoldsMarker, Marked, CutAt, Dir, Name, Stem, Ext, OriginalOf, ConflictCopyName;
    DayIsDate(date);
    MarkedIs(stem + " ");
    PlainIs(stem, ext, device);
    PathIsCut(dir, stem, ext);
    CopyIsNamed(dir, stem, ext, device, date);
    RoundTrip(dir + stem + ext, device, date);
    assert ReadsBack(dir + stem + ext, device) <==>
      '/' !in device && OneLine(device) && OneLine(stem) && NoBrackets(ext) && !HoldsMarker(stem + " ");
    assert OneLine(device) && OneLine(stem) <==> forall c :: c in device + stem ==> c != '\n' && c != '\r' && c != '\U{2028}' && c != '\U{2029}';
    assert Marked(stem + " ") <==> HoldsMarker(stem + " ");
    assert OriginalOf(ConflictCopyName(dir + stem + ext, device, date)) == Some(dir + stem + ext) <==> ReadsBack(dir + stem + ext, device);
  }

  /** Nothing else is ever read as a copy: what is read back to a note is that note's name with a day, a device
      and the brackets in it. */
  lemma {:induction false} OnlyCopiesAreRead(copy: string, note: string)
      returns (dir: string, stem: string, ext: string, device: string, date: string)
    requires OriginalOf(copy) == Some(note)
    ensures copy == dir + stem + " (conflict " + date + " " + device + ")" + ext && note == dir + (stem + ext)
    ensures IsDir(dir) && Slashless(stem) && IsDay(date)
    ensures ext == "" || (ext[0] == '.' && forall c :: c in ext[1..] ==> c != '.' && c != '/' && c != '(' && c != ')')
  {
    hide Dir, Name, OriginalName, Slashless, IsDate, IsDay;
    DirAndName(copy);
    dir := Dir(copy);
    stem, ext, device, date := NameParts(Name(copy));
    Regroup(dir, stem, " (conflict ", date, " ", device, ")", ext);
    DayIsDate(date);
  }

  lemma {:induction false} NameParts(name: string) returns (stem: string, ext: string, device: string, date: string)
    requires OriginalName(name).Some?
    ensures name == stem + " (conflict " + date + " " + device + ")" + ext && OriginalName(name) == Some(stem + ext)
    ensures IsDate(date) && IsExt(ext) && (Slashless(name) ==> Slashless(stem))
  {
    var p, q := FirstParse(name, 0).value, LastIndexOf(name, ')');
    ParsesParts(name, p, q);
    hide FirstParse, Parses, LastIndexOf, MarkerAt, IsDate, IsExt;
    stem, ext := name[..p], name[q + 1..];
    date, device := name[p + 11..p + 21], name[p + MARK..q];
    Pieces(name, p, q);
  }

  lemma {:induction false} ParsesParts(name: string, p: nat, q: int)
    requires Parses(name, p, q)
    ensures p + MARK <= q < |name| && name[q] == ')' && IsExt(name[q + 1..]) && IsDate(name[p + 11..p + 21])
    ensures name[p..p + 11] == " (conflict " && name[p + 21..p + MARK] == " "
  {
    hide IsDate, IsExt, OneLine;
    MarkerIs(name, p);
  }

  lemma {:induction false} DirAndName(path: string)
    ensures Dir(path) + Name(path) == path && IsDir(Dir(path)) && Slashless(Name(path))
  {
  }

  lemma {:induction false} MarkerIs(name: string, p: nat)
    requires MarkerAt(name, p)
    ensures name[p..p + 11] == " (conflict " && name[p + 21..p + MARK] == " " && IsDate(name[p + 11..p + 21])
  {
    assert |" (conflict "| == 11;
  }

  lemma {:induction false} UpTo(s: string, i: nat, j: nat)
    requires i <= j <= |s|
    ensures s[..i] + s[i..j] == s[..j]
  {
  }

  lemma {:induction false} Pieces(name: string, p: nat, q: nat)
    requires p + MARK <= q < |name| && name[q] == ')'
    ensures name == name[..p] + name[p..p + 11] + name[p + 11..p + 21] + name[p + 21..p + MARK] + name[p + MARK..q] + ")" + name[q + 1..]
  {
    UpTo(name, p, p + 11);
    UpTo(name, p + 11, p + 21);
    UpTo(name, p + 21, p + MARK);
    UpTo(name, p + MARK, q);
    UpTo(name, q, q + 1);
    UpTo(name, q + 1, |name|);
    assert name[q..q + 1] == ")" && name[q + 1..|name|] == name[q + 1..] && name[..|name|] == name;
  }
}
