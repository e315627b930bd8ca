/**
 * Recognition of the WhatsApp download commands: pick the message text,
 * split it into whitespace-separated fields, lower-case the first field and
 * compare it with the two command words.
 */
module Commands {
  import opened Wrappers
  import opened Args

  /** The characters Go's `unicode.IsSpace` accepts. */
  predicate IsSpace(c: char)
  {
    c == ' ' || c == '\t' || c == '\n' || c == '\r' || c == '\U{000B}' || c == '\U{000C}' ||
    c == '\U{0085}' || c == '\U{00A0}' || c == '\U{1680}' || ('\U{2000}' <= c <= '\U{200A}') ||
    c == '\U{2028}' || c == '\U{2029}' || c == '\U{202F}' || c == '\U{205F}' || c == '\U{3000}'
  }

  predicate NoSpace(w: string)
  {
    forall i :: 0 <= i < |w| ==> !IsSpace(w[i])
  }

  /** A field: non-empty and free of white space. */
  predicate IsField(w: string)
  {
    w != [] && NoSpace(w)
  }

  predicate AllSpace(s: string)
  {
    forall i :: 0 <= i < |s| ==> IsSpace(s[i])
  }

  /** The first index at or after `i` that does not hold white space (or |s|). */
  function SkipSpace(s: string, i: nat): (r: nat)
    requires i <= |s|
    ensures i <= r <= |s|
    ensures r < |s| ==> !IsSpace(s[r])
    decreases |s| - i
  {
    if i < |s| && IsSpace(s[i]) then SkipSpace(s, i + 1) else i
  }

  /** The first index at or after `i` that holds white space (or |s|). */
  function SkipWord(s: string, i: nat): (r: nat)
    requires i <= |s|
    ensures i <= r <= |s|
    ensures i < |s| && !IsSpace(s[i]) ==> i < r
    decreases |s| - i
  {
    if i < |s| && !IsSpace(s[i]) then SkipWord(s, i + 1) else i
  }

  /** SkipSpace passes over white space only and stops at the first other character. */
  lemma {:induction false} SkipSpaceStops(s: string, i: nat)
    requires i <= |s|
    ensures AllSpace(s[i..SkipSpace(s, i)])
    ensures SkipSpace(s, i) < |s| ==> !IsSpace(s[SkipSpace(s, i)])
    decreases |s| - i
  {
    if i < |s| && IsSpace(s[i]) {
      SkipSpaceStops(s, i + 1);
      assert s[i..SkipSpace(s, i)] == [s[i]] + s[i + 1..SkipSpace(s, i)];
    }
  }

  /** SkipWord passes over non-space characters only and stops at the first white space. */
  lemma {:induction false} SkipWordStops(s: string, i: nat)
    requires i <= |s|
    ensures NoSpace(s[i..SkipWord(s, i)])
    ensures SkipWord(s, i) < |s| ==> IsSpace(s[SkipWord(s, i)])
    decreases |s| - i
  {
    if i < |s| && !IsSpace(s[i]) {
      SkipWordStops(s, i + 1);
      assert s[i..SkipWord(s, i)] == [s[i]] + s[i + 1..SkipWord(s, i)];
    }
  }

  /** Go's `strings.Fields`: the maximal runs of non-space characters, in order. */
  function Fields(s: string): (r: seq<string>)
    ensures r == [] <==> AllSpace(s)
    decreases |s|
  {
    var a := SkipSpace(s, 0);
    if a == |s| then
      SkipSpaceStops(s, 0);
      assert s[0..|s|] == s;
      []
    else
      var b := SkipWord(s, a);
      [s[a..b]] + Fields(s[b..])
  }

  /** Fields separated by a single space: the inverse of Fields on well-formed field lists. */
  function Join(fs: seq<string>): string
  {
    if fs == [] then ""
    else if |fs| == 1 then fs[0]
    else fs[0] + " " + Join(fs[1..])
  }

  /** `s` with all white space removed. */
  function Squeeze(s: string): string
  {
    if s == [] then ""
    else if IsSpace(s[0]) then Squeeze(s[1..])
    else [s[0]] + Squeeze(s[1..])
  }

  function Concat(fs: seq<string>): string
  {
    if fs == [] then "" else fs[0] + Concat(fs[1..])
  }

  /** Every field Fields returns is non-empty and free of white space. */
  lemma {:induction false} FieldsAreFields(s: string)
    ensures forall k :: 0 <= k < |Fields(s)| ==> IsField(Fields(s)[k])
    decreases |s|
  {
    var a := SkipSpace(s, 0);
    if a < |s| {
      var b := SkipWord(s, a);
      FieldsAreFields(s[b..]);
      SkipWordStops(s, a);
      assert IsField(s[a..b]);
      assert Fields(s) == [s[a..b]] + Fields(s[b..]);
    }
  }

  lemma {:induction false} SqueezeAppend(a: string, b: string)
    ensures Squeeze(a + b) == Squeeze(a) + Squeeze(b)
  {
    if a != [] {
      assert (a + b)[0] == a[0];
      assert (a + b)[1..] == a[1..] + b;
      SqueezeAppend(a[1..], b);
      if !IsSpace(a[0]) {
        calc {
          Squeeze(a + b);
          [a[0]] + Squeeze(a[1..] + b);
          [a[0]] + (Squeeze(a[1..]) + Squeeze(b));
          ([a[0]] + Squeeze(a[1..])) + Squeeze(b);
        }
      }
    } else {
      assert a + b == b;
    }
  }

  lemma {:induction false} SqueezeSpace(s: string)
    requires AllSpace(s)
    ensures Squeeze(s) == ""
  {
    if s != [] {
      SqueezeSpace(s[1..]);
    }
  }

  lemma {:induction false} SqueezeWord(w: string)
    requires NoSpace(w)
    ensures Squeeze(w) == w
  {
    if w != [] {
      SqueezeWord(w[1..]);
    }
  }

  /** Fields loses nothing but white space: joined back together they are `s` without its spaces. */
  lemma {:induction false} FieldsKeepText(s: string)
    ensures Concat(Fields(s)) == Squeeze(s)
    decreases |s|
  {
    var a := SkipSpace(s, 0);
    SqueezeSkipSpace(s, 0);
    assert s[0..] == s;
    if a < |s| {
      var b := SkipWord(s, a);
      SqueezeSkipWord(s, a);
      FieldsKeepText(s[b..]);
      var fs := Fields(s);
      assert fs == [s[a..b]] + Fields(s[b..]);
      assert fs[1..] == Fields(s[b..]);
    } else {
      assert s[a..] == [];
    }
  }

  /** Skipping white space does not change the squeezed text. */
  lemma SqueezeSkipSpace(s: string, i: nat)
    requires i <= |s|
    ensures Squeeze(s[i..]) == Squeeze(s[SkipSpace(s, i)..])
  {
    var a := SkipSpace(s, i);
    assert s[i..] == s[i..a] + s[a..];
    SqueezeAppend(s[i..a], s[a..]);
    SkipSpaceStops(s, i);
    SqueezeSpace(s[i..a]);
  }

  /** A word survives squeezing whole. */
  lemma SqueezeSkipWord(s: string, a: nat)
    requires a <= |s|
    ensures Squeeze(s[a..]) == s[a..SkipWord(s, a)] + Squeeze(s[SkipWord(s, a)..])
  {
    var b := SkipWord(s, a);
    SkipWordStops(s, a);
    assert s[a..] == s[a..b] + s[b..];
    SqueezeAppend(s[a..b], s[b..]);
    SqueezeWord(s[a..b]);
  }

  /** Scanning a suffix placed after a prefix gives the same positions, shifted. */
  lemma {:induction false} ScanShift(p: string, q: string, j: nat)
    requires j <= |q|
    ensures SkipSpace(p + q, |p| + j) == |p| + SkipSpace(q, j)
    ensures SkipWord(p + q, |p| + j) == |p| + SkipWord(q, j)
    decreases |q| - j
  {
    if j < |q| {
      assert (p + q)[|p| + j] == q[j];
      ScanShift(p, q, j + 1);
    }
  }

  lemma SliceOfAppend(p: string, q: string, a: nat, b: nat)
    requires a <= b <= |q|
    ensures (p + q)[|p| + a..|p| + b] == q[a..b]
  {
    forall k | 0 <= k < b - a ensures (p + q)[|p| + a..|p| + b][k] == q[a..b][k] {
      assert (p + q)[|p| + a + k] == q[a + k];
    }
  }

  /** The fields of a single-space join are the joined fields (a round trip). */
  lemma {:induction false} FieldsOfJoin(fs: seq<string>)
    requires forall i :: 0 <= i < |fs| ==> IsField(fs[i])
    ensures Fields(Join(fs)) == fs
  {
    if |fs| == 1 {
      FieldsOfLeadingField(fs[0], "");
      assert fs[0] + "" == fs[0];
    } else if |fs| > 1 {
      FieldsOfJoin(fs[1..]);
      FieldsOfLeadingField(fs[0], " " + Join(fs[1..]));
      FieldsAfterSpaces(" ", Join(fs[1..]));
      assert Join(fs) == fs[0] + (" " + Join(fs[1..]));
    }
  }

  /** A field at the start of a text, ended by white space or the end, is its first field. */
  lemma FieldsOfLeadingField(w: string, rest: string)
    requires IsField(w)
    requires rest == "" || IsSpace(rest[0])
    ensures Fields(w + rest) == [w] + Fields(rest)
  {
    var s := w + rest;
    assert s[0] == w[0];
    WordEnd(w, rest);
    assert s[0..|w|] == w;
    assert s[|w|..] == rest;
  }

  /** Leading white space does not change the fields. */
  lemma FieldsAfterSpaces(p: string, t: string)
    requires AllSpace(p)
    ensures Fields(p + t) == Fields(t)
  {
    var s := p + t;
    var d := |p|;
    var a := SkipSpace(t, 0);
    assert s[0..d] == p;
    SkipSpaceThrough(s, 0, d);
    assert SkipSpace(s, 0) == d + a by { ScanShift(p, t, 0); }
    if a < |t| {
      var b := SkipWord(t, a);
      assert SkipWord(s, d + a) == d + b by { ScanShift(p, t, a); }
      assert s[d + a..d + b] == t[a..b] by { SliceOfAppend(p, t, a, b); }
      assert s[d + b..] == t[b..];
      SameFirstField(s, t, d, a, b);
    }
  }

  /** Two texts whose first fields are equal and followed by equal remainders have equal fields. */
  lemma SameFirstField(s: string, t: string, d: nat, a: nat, b: nat)
    requires a < |t| && |s| == |t| + d
    requires SkipSpace(t, 0) == a && SkipWord(t, a) == b
    requires SkipSpace(s, 0) == d + a && SkipWord(s, d + a) == d + b
    requires s[d + a..d + b] == t[a..b] && s[d + b..] == t[b..]
    ensures Fields(s) == Fields(t)
  {
  }

  /** SkipSpace passes a stretch of white space without changing where it stops. */
  lemma {:induction false} SkipSpaceThrough(s: string, i: nat, k: nat)
    requires i <= k <= |s| && AllSpace(s[i..k])
    ensures SkipSpace(s, i) == SkipSpace(s, k)
    decreases k - i
  {
    if i < k {
      assert s[i] == s[i..k][0];
      assert s[i + 1..k] == s[i..k][1..];
      SkipSpaceThrough(s, i + 1, k);
    }
  }

  /**
   * The text `seps[0] + fs[0] + seps[1] + ... + fs[n-1] + seps[n]`: fields
   * separated, preceded and followed by arbitrary runs of white space.
   */
  function Spaced(seps: seq<string>, fs: seq<string>): string
    requires |seps| == |fs| + 1
  {
    if fs == [] then seps[0] else seps[0] + (fs[0] + Spaced(seps[1..], fs[1..]))
  }

  /**
   * Fields returns exactly the maximal runs of non-space characters: any
   * fields, separated by non-empty white space and with any white space
   * before and after, come back unchanged.
   */
  lemma {:induction false} FieldsOfSpaced(seps: seq<string>, fs: seq<string>)
    requires |seps| == |fs| + 1
    requires forall i :: 0 <= i < |fs| ==> IsField(fs[i])
    requires forall j :: 0 <= j < |seps| ==> AllSpace(seps[j])
    requires forall j :: 0 < j < |fs| ==> seps[j] != ""
    ensures Fields(Spaced(seps, fs)) == fs
  {
    if fs == [] {
      var s := seps[0];
      assert s[0..|s|] == s;
      SkipSpaceOver(s, 0, |s|);
    } else {
      var rest := Spaced(seps[1..], fs[1..]);
      FieldsOfSpaced(seps[1..], fs[1..]);
      assert rest == "" || IsSpace(rest[0]) by { SpacedStart(seps[1..], fs[1..]); }
      FieldsOfLeadingField(fs[0], rest);
      FieldsAfterSpaces(seps[0], fs[0] + rest);
    }
  }

  /** A spaced text starts with its first separator, or with its first field when that separator is empty. */
  lemma SpacedStart(seps: seq<string>, fs: seq<string>)
    requires |seps| == |fs| + 1 && forall j :: 0 <= j < |seps| ==> AllSpace(seps[j])
    requires fs != [] ==> seps[0] != ""
    ensures Spaced(seps, fs) == "" || IsSpace(Spaced(seps, fs)[0])
  {
    if seps[0] != "" {
      assert Spaced(seps, fs)[0] == seps[0][0];
    }
  }

  /** A field followed by white space or nothing ends where the white space begins. */
  lemma WordEnd(w: string, rest: string)
    requires IsField(w)
    requires rest == "" || IsSpace(rest[0])
    ensures SkipWord(w + rest, 0) == |w|
  {
    var s := w + rest;
    assert s[0..|w|] == w;
    SkipWordOver(s, 0, |w|);
  }

  /** SkipWord from `i` stops at `k` when only non-space characters lie between them and `k` ends the word. */
  lemma {:induction false} SkipWordOver(s: string, i: nat, k: nat)
    requires i <= k <= |s| && NoSpace(s[i..k])
    requires k == |s| || IsSpace(s[k])
    ensures SkipWord(s, i) == k
    decreases k - i
  {
    if i < k {
      assert s[i] == s[i..k][0];
      assert s[i + 1..k] == s[i..k][1..];
      SkipWordOver(s, i + 1, k);
    }
  }

  /** SkipSpace from `i` stops at `k` when only white space lies between them and `k` does not hold white space. */
  lemma {:induction false} SkipSpaceOver(s: string, i: nat, k: nat)
    requires i <= k <= |s| && AllSpace(s[i..k])
    requires k == |s| || !IsSpace(s[k])
    ensures SkipSpace(s, i) == k
    decreases k - i
  {
    if i < k {
      assert s[i] == s[i..k][0];
      assert s[i + 1..k] == s[i..k][1..];
      SkipSpaceOver(s, i + 1, k);
    }
  }

  /** ASCII lower-casing of one character. */
  function LowerChar(c: char): char
  {
    if 'A' <= c <= 'Z' then (c as int + 32) as char else c
  }

  /**
   * Go's `strings.ToLower` restricted to ASCII letters: every character
   * lowered, the length kept.
   */
  function ToLower(s: string): (r: string)
    ensures |r| == |s| && forall i :: 0 <= i < |s| ==> r[i] == LowerChar(s[i])
  {
    if s == [] then [] else [LowerChar(s[0])] + ToLower(s[1..])
  }

  /** The text the handler reads: the extended text when it is non-empty, the plain conversation text otherwise. */
  function MessageText(extendedText: string, conversation: string): (r: string)
    ensures r == extendedText || r == conversation
    ensures r == "" <==> extendedText == "" && conversation == ""
  {
    if extendedText != "" then extendedText else conversation
  }

  const VideoCommand := "/ytdlp"
  const Mp3Command := "/ytdlpmp3"

  /**
   * The WhatsApp dispatch: the mode to run and the fields handed to the
   * download handler, or None when the message is not a download command.
   */
  function Dispatch(extendedText: string, conversation: string): (r: Option<(Mode, seq<string>)>)
    ensures r.Some? ==> r.value.1 == Fields(MessageText(extendedText, conversation)) && r.value.1 != []
  {
    var text := MessageText(extendedText, conversation);
    if text == "" then None
    else
      var parts := Fields(text);
      if |parts| == 0 then None
      else
        var command := ToLower(parts[0]);
        if command == VideoCommand then Some((Video, parts))
        else if command == Mp3Command then Some((Mp3, parts))
        else None
  }

  /** Dispatch selects video exactly for the first field `/ytdlp` in any ASCII case, mp3 exactly for `/ytdlpmp3`. */
  lemma DispatchIff(extendedText: string, conversation: string)
    ensures var parts := Fields(MessageText(extendedText, conversation));
      (Dispatch(extendedText, conversation) == Some((Video, parts)) <==>
         parts != [] && ToLower(parts[0]) == VideoCommand) &&
      (Dispatch(extendedText, conversation) == Some((Mp3, parts)) <==>
         parts != [] && ToLower(parts[0]) == Mp3Command) &&
      (Dispatch(extendedText, conversation) == None <==>
         parts == [] || (ToLower(parts[0]) != VideoCommand && ToLower(parts[0]) != Mp3Command))
  {
  }

  /** A non-empty extended text hides the conversation text entirely. */
  lemma ExtendedTextWins(extendedText: string, c1: string, c2: string)
    requires extendedText != ""
    ensures Dispatch(extendedText, c1) == Dispatch(extendedText, c2)
  {
  }

  /** A message whose text is empty or only white space is ignored. */
  lemma BlankMessageIgnored(extendedText: string, conversation: string)
    requires AllSpace(MessageText(extendedText, conversation))
    ensures Dispatch(extendedText, conversation) == None
  {
    var text := MessageText(extendedText, conversation);
    assert text[0..|text|] == text;
    SkipSpaceOver(text, 0, |text|);
  }

  /** A command word followed by one space and a URL-like field is dispatched on the lowered word alone. */
  lemma DispatchCommandLine(command: string, url: string)
    requires IsField(command) && IsField(url)
    ensures var r := Dispatch(command + " " + url, "");
      r == (if ToLower(command) == VideoCommand then Some((Video, [command, url]))
            else if ToLower(command) == Mp3Command then Some((Mp3, [command, url]))
            else None)
  {
    FieldsOfJoin([command, url]);
    assert Join([command, url]) == command + " " + url;
  }

  /**
   * The spellings lower-casing maps onto a text without upper-case letters:
   * same length, and each character either equal or the upper-case form of
   * a lower-case letter.
   */
  lemma LowerSpellings(s: string, c: string)
    requires forall i :: 0 <= i < |c| ==> !('A' <= c[i] <= 'Z')
    ensures ToLower(s) == c <==>
      |s| == |c| && forall i :: 0 <= i < |s| ==> s[i] == c[i] || ('a' <= c[i] <= 'z' && s[i] as int == c[i] as int - 32)
  {
    if |s| == |c| {
      forall i | 0 <= i < |s|
        ensures LowerChar(s[i]) == c[i] <==> s[i] == c[i] || ('a' <= c[i] <= 'z' && s[i] as int == c[i] as int - 32)
      {
      }
      if forall i :: 0 <= i < |s| ==> LowerChar(s[i]) == c[i] {
        assert ToLower(s) == c;
      }
    }
  }

  /**
   * The message texts the video command accepts: the command word in any
   * mix of upper- and lower-case letters, nothing else.
   */
  lemma VideoCommandSpellings(s: string)
    ensures ToLower(s) == VideoCommand <==>
      |s| == 6 && s[0] == '/' && forall i :: 1 <= i < 6 ==> s[i] == VideoCommand[i] || s[i] as int == VideoCommand[i] as int - 32
  {
    CommandLetters(VideoCommand);
    LowerSpellings(s, VideoCommand);
  }

  /** The same for the mp3 command, whose final digit has no other spelling. */
  lemma Mp3CommandSpellings(s: string)
    ensures ToLower(s) == Mp3Command <==>
      |s| == 9 && s[0] == '/' && s[8] == '3' &&
      forall i :: 1 <= i < 8 ==> s[i] == Mp3Command[i] || s[i] as int == Mp3Command[i] as int - 32
  {
    CommandLetters(Mp3Command);
    LowerSpellings(s, Mp3Command);
  }

  lemma CommandLetters(c: string)
    requires c == VideoCommand || c == Mp3Command
    ensures c[0] == '/' && forall i :: 0 <= i < |c| ==> !('A' <= c[i] <= 'Z')
    ensures forall i :: 1 <= i < 6 ==> 'a' <= c[i] <= 'z'
    ensures c == Mp3Command ==> |c| == 9 && c[8] == '3' && forall i :: 6 <= i < 8 ==> 'a' <= c[i] <= 'z'
  {
  }
}
