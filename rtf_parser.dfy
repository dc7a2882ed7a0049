// The RTF parser: a library converter turns the file into text, and when the converter fails a
// simple fallback strips RTF control words, braces and control characters and normalises
// whitespace. The converter's output is a parameter; the fallback is modelled step by step.

module RtfParsing {
  import opened Wrappers
  import opened Strings

  predicate IsAsciiLower(c: char)
  {
    'a' <= c <= 'z'
  }

  /** The characters the fallback keeps: printable ASCII, newline, carriage return and tab. */
  predicate IsKept(c: char)
  {
    (' ' <= c <= '~') || c == '\n' || c == '\r' || c == '\t'
  }

  function DropLetters(s: string): (r: string)
    ensures |r| <= |s| && r == s[|s| - |r|..]
    ensures r != [] ==> !IsAsciiLower(r[0])
  {
    if s != [] && IsAsciiLower(s[0]) then DropLetters(s[1..]) else s
  }

  function DropDigits(s: string): (r: string)
    ensures |r| <= |s| && r == s[|s| - |r|..]
    ensures r != [] ==> !IsDigit(r[0])
  {
    if s != [] && IsDigit(s[0]) then DropDigits(s[1..]) else s
  }

  function DropOneSpace(s: string): (r: string)
    ensures |r| <= |s| && r == s[|s| - |r|..]
  {
    if s != [] && IsSpace(s[0]) then s[1..] else s
  }

  /**
   * Deleting every match of the pattern backslash, lower-case letters, digits, optional
   * whitespace character, scanning left to right; a backslash not followed by a letter stays.
   */
  function RemoveControlWords(s: string): (r: string)
    decreases |s|
  {
    if s == [] then []
    else if |s| >= 2 && s[0] == '\\' && IsAsciiLower(s[1]) then
      RemoveControlWords(DropOneSpace(DropDigits(DropLetters(s[1..]))))
    else
      [s[0]] + RemoveControlWords(s[1..])
  }

  /** Removing the characters '{' and '}'. */
  function RemoveBraces(s: string): (r: string)
    ensures forall i :: 0 <= i < |r| ==> r[i] != '{' && r[i] != '}'
  {
    if s == [] then []
    else (if s[0] == '{' || s[0] == '}' then [] else [s[0]]) + RemoveBraces(s[1..])
  }

  /** Removing every character outside printable ASCII, newline, carriage return and tab. */
  function KeepPrintable(s: string): (r: string)
    ensures forall i :: 0 <= i < |r| ==> IsKept(r[i])
  {
    if s == [] then []
    else (if IsKept(s[0]) then [s[0]] else []) + KeepPrintable(s[1..])
  }

  /** The characters the fallback's output consists of. */
  predicate IsOutputChar(c: char)
  {
    ' ' <= c <= '~' && c != '{' && c != '}'
  }

  predicate NoBraces(s: string)
  {
    forall i :: 0 <= i < |s| ==> s[i] != '{' && s[i] != '}'
  }

  lemma {:induction false} KeepPrintableNoBraces(s: string)
    requires NoBraces(s)
    ensures forall i :: 0 <= i < |KeepPrintable(s)| ==> IsOutputChar(KeepPrintable(s)[i]) || KeepPrintable(s)[i] in "\n\r\t"
  {
    if s != [] {
      assert NoBraces(s[1..]) by {
        forall i | 0 <= i < |s[1..]| ensures s[1..][i] != '{' && s[1..][i] != '}' {
          assert s[1..][i] == s[i + 1];
        }
      }
      KeepPrintableNoBraces(s[1..]);
    }
  }

  function DropSpaces(s: string): (r: string)
    ensures |r| <= |s| && r == s[|s| - |r|..]
    ensures r != [] ==> !IsSpace(r[0])
  {
    if s != [] && IsSpace(s[0]) then DropSpaces(s[1..]) else s
  }

  /** Replacing every maximal run of whitespace by one space. */
  function CollapseSpaces(s: string): (r: string)
    decreases |s|
  {
    if s == [] then []
    else if IsSpace(s[0]) then [' '] + CollapseSpaces(DropSpaces(s))
    else [s[0]] + CollapseSpaces(s[1..])
  }

  /** Each output character is a space or a non-whitespace character of the input's alphabet. */
  lemma {:induction false} CollapseAlphabet(s: string)
    requires forall i :: 0 <= i < |s| ==> IsOutputChar(s[i]) || s[i] in "\n\r\t"
    ensures forall i :: 0 <= i < |CollapseSpaces(s)| ==> IsOutputChar(CollapseSpaces(s)[i])
    decreases |s|
  {
    if s != [] {
      var rest := if IsSpace(s[0]) then DropSpaces(s) else s[1..];
      forall i | 0 <= i < |rest| ensures IsOutputChar(rest[i]) || rest[i] in "\n\r\t" {
        assert rest[i] == s[|s| - |rest| + i];
      }
      CollapseAlphabet(rest);
    }
  }

  /** The output has no two whitespace characters in a row, and starts with whitespace iff the input does. */
  lemma {:induction false} CollapseSpacing(s: string)
    ensures NoDoubleSpace(CollapseSpaces(s))
    ensures CollapseSpaces(s) != [] ==> s != [] && (IsSpace(CollapseSpaces(s)[0]) <==> IsSpace(s[0]))
    decreases |s|
  {
    if s != [] {
      if IsSpace(s[0]) {
        var rest := DropSpaces(s);
        CollapseSpacing(rest);
      } else {
        CollapseSpacing(s[1..]);
      }
    }
  }

  /** The number of whitespace characters starting at position i. */
  function SpaceRun(s: string, i: nat): (n: nat)
    requires i <= |s|
    ensures i + n <= |s|
    ensures forall j :: i <= j < i + n ==> IsSpace(s[j])
    decreases |s| - i
  {
    if i < |s| && IsSpace(s[i]) then 1 + SpaceRun(s, i + 1) else 0
  }

  /** The last position in [lo, hi) holding a newline, or -1. */
  function LastNewline(s: string, lo: nat, hi: nat): (r: int)
    requires lo <= hi <= |s|
    ensures r == -1 || (lo <= r < hi && s[r] == '\n')
    ensures r == -1 ==> forall j :: lo <= j < hi ==> s[j] != '\n'
    decreases hi - lo
  {
    if hi == lo then -1
    else if s[hi - 1] == '\n' then hi - 1
    else LastNewline(s, lo, hi - 1)
  }

  /**
   * Replacing each match of newline, whitespace, newline by two newlines. The greedy middle part
   * makes a match run from a newline to the last newline of the whitespace run after it.
   */
  function CollapseBlankLines(s: string): string
    decreases |s|
  {
    if s == [] then []
    else if s[0] == '\n' then
      var last := LastNewline(s, 1, 1 + SpaceRun(s, 1));
      if last >= 1 then "\n\n" + CollapseBlankLines(s[last + 1..])
      else [s[0]] + CollapseBlankLines(s[1..])
    else [s[0]] + CollapseBlankLines(s[1..])
  }

  /** _simple_rtf_extract */
  function SimpleRtfExtract(rtf: string): string
  {
    Strip(CollapseBlankLines(CollapseSpaces(KeepPrintable(RemoveBraces(RemoveControlWords(rtf))))))
  }

  /** Text that the fallback leaves exactly as it is. */
  predicate IsClean(s: string)
  {
    (forall i :: 0 <= i < |s| ==> ' ' <= s[i] <= '~' && s[i] != '\\' && s[i] != '{' && s[i] != '}')
    && (forall i :: 0 <= i < |s| - 1 ==> !(s[i] == ' ' && s[i + 1] == ' '))
    && (s != [] ==> s[0] != ' ' && s[|s| - 1] != ' ')
  }

  lemma {:induction false} BlankLinesNoNewline(s: string)
    requires '\n' !in s
    ensures CollapseBlankLines(s) == s
  {
    if s != [] {
      BlankLinesNoNewline(s[1..]);
    }
  }

  /** Whatever the input, the fallback's output has no brace and only printable ASCII. */
  lemma ExtractPrintable(rtf: string)
    ensures forall i :: 0 <= i < |SimpleRtfExtract(rtf)| ==> IsOutputChar(SimpleRtfExtract(rtf)[i])
  {
    var removed := RemoveBraces(RemoveControlWords(rtf));
    var kept := KeepPrintable(removed);
    KeepPrintableNoBraces(removed);
    var collapsed := CollapseSpaces(kept);
    CollapseAlphabet(kept);
    OutputCharsNoNewline(collapsed);
    BlankLinesNoNewline(collapsed);
    StripOutputChars(collapsed);
  }

  lemma OutputCharsNoNewline(s: string)
    requires forall i :: 0 <= i < |s| ==> IsOutputChar(s[i])
    ensures '\n' !in s
  {
  }

  lemma StripOutputChars(s: string)
    requires forall i :: 0 <= i < |s| ==> IsOutputChar(s[i])
    ensures forall i :: 0 <= i < |Strip(s)| ==> IsOutputChar(Strip(s)[i])
  {
    StripSlice(s);
    var a, b :| 0 <= a <= b <= |s| && Strip(s) == s[a..b];
    forall i | 0 <= i < b - a ensures IsOutputChar(Strip(s)[i]) {
      assert Strip(s)[i] == s[a + i];
    }
  }

  predicate NoDoubleSpace(s: string)
  {
    forall i :: 0 <= i < |s| - 1 ==> !(IsSpace(s[i]) && IsSpace(s[i + 1]))
  }

  lemma SliceNoDoubleSpace(s: string, a: nat, b: nat)
    requires a <= b <= |s| && NoDoubleSpace(s)
    ensures NoDoubleSpace(s[a..b])
  {
    var r := s[a..b];
    forall i | 0 <= i < |r| - 1 ensures !(IsSpace(r[i]) && IsSpace(r[i + 1])) {
      assert r[i] == s[a + i] && r[i + 1] == s[a + i + 1];
    }
  }

  /** The fallback's output never holds two whitespace characters in a row, nor begins or ends with one. */
  lemma ExtractSpacing(rtf: string)
    ensures NoDoubleSpace(SimpleRtfExtract(rtf))
    ensures var r := SimpleRtfExtract(rtf); r != [] ==> !IsSpace(r[0]) && !IsSpace(r[|r| - 1])
  {
    var collapsed := CollapseSpaces(KeepPrintable(RemoveBraces(RemoveControlWords(rtf))));
    CollapsedText(rtf);
    BlankLinesNoNewline(collapsed);
    StripShape(collapsed);
    StripNoDoubleSpace(collapsed);
  }

  /** Before the last two steps, the text has single spaces and no newline. */
  lemma CollapsedText(rtf: string)
    ensures var collapsed := CollapseSpaces(KeepPrintable(RemoveBraces(RemoveControlWords(rtf))));
      '\n' !in collapsed && NoDoubleSpace(collapsed)
  {
    var kept := KeepPrintable(RemoveBraces(RemoveControlWords(rtf)));
    KeepPrintableNoBraces(RemoveBraces(RemoveControlWords(rtf)));
    CollapseAlphabet(kept);
    CollapseSpacing(kept);
    OutputCharsNoNewline(CollapseSpaces(kept));
  }

  lemma StripNoDoubleSpace(s: string)
    requires NoDoubleSpace(s)
    ensures NoDoubleSpace(Strip(s))
  {
    StripSlice(s);
    var a, b :| 0 <= a <= b <= |s| && Strip(s) == s[a..b];
    SliceNoDoubleSpace(s, a, b);
  }

  lemma PrintableSpace(c: char)
    requires ' ' <= c <= '~'
    ensures IsSpace(c) <==> c == ' '
  {
  }

  /** Strip keeps a contiguous part of its input. */
  lemma StripSlice(s: string)
    ensures exists a, b :: 0 <= a <= b <= |s| && Strip(s) == s[a..b]
  {
    var t := TrimStart(s);
    var a := |s| - |t|;
    var r := TrimEnd(t);
    assert r == t[..|r|];
    assert t == s[a..];
    assert r == s[a..a + |r|];
  }

  lemma {:induction false} CleanNoControlWords(s: string)
    requires forall i :: 0 <= i < |s| ==> s[i] != '\\'
    ensures RemoveControlWords(s) == s
  {
    if s != [] {
      CleanNoControlWords(s[1..]);
      assert s == [s[0]] + s[1..];
    }
  }

  lemma {:induction false} CleanNoBraces(s: string)
    requires forall i :: 0 <= i < |s| ==> s[i] != '{' && s[i] != '}'
    ensures RemoveBraces(s) == s
  {
    if s != [] {
      CleanNoBraces(s[1..]);
      assert s == [s[0]] + s[1..];
    }
  }

  lemma {:induction false} CleanKept(s: string)
    requires forall i :: 0 <= i < |s| ==> ' ' <= s[i] <= '~'
    ensures KeepPrintable(s) == s
  {
    if s != [] {
      CleanKept(s[1..]);
      assert s == [s[0]] + s[1..];
    }
  }

  lemma {:induction false} CleanSpaces(s: string)
    requires forall i :: 0 <= i < |s| ==> ' ' <= s[i] <= '~'
    requires forall i :: 0 <= i < |s| - 1 ==> !(s[i] == ' ' && s[i + 1] == ' ')
    ensures CollapseSpaces(s) == s
  {
    if s != [] {
      CleanSpaces(s[1..]);
      PrintableSpace(s[0]);
      if s[0] == ' ' {
        if |s| > 1 {
          PrintableSpace(s[1]);
        }
        assert DropSpaces(s[1..]) == s[1..];
      }
      assert s == [s[0]] + s[1..];
    }
  }

  /** On clean text the fallback is the identity. */
  lemma ExtractCleanIdentity(s: string)
    requires IsClean(s)
    ensures SimpleRtfExtract(s) == s
  {
    CleanNoControlWords(s);
    CleanNoBraces(s);
    CleanKept(s);
    CleanSpaces(s);
    BlankLinesNoNewline(s);
    if s != [] {
      PrintableSpace(s[0]);
      PrintableSpace(s[|s| - 1]);
    }
    assert TrimStart(s) == s;
    assert TrimEnd(s) == s;
  }

  /** The parser's record; `error` is present exactly on the failure path. */
  datatype RtfResult = RtfResult(
    filePath: string,
    fileName: string,
    fileType: string,
    extractedText: string,
    fileSizeBytes: nat,
    totalLines: nat,
    totalTextLength: nat,
    error: Option<string>)

  /** The file as the operating system reports it: its size and its content read as text. */
  datatype RtfFile = RtfFile(size: nat, content: string)

  /**
   * parse_file. `file` is None when the path does not exist; `converted` is the library
   * converter's output, None when it raises.
   */
  function ParseRtf(path: string, file: Option<RtfFile>, converted: Option<string>): (r: RtfResult)
    ensures r.filePath == path && r.fileName == Basename(path) && r.fileType == "rtf"
    ensures r.error.Some? <==> file.None?
    ensures file.None? ==> r.error == Some("Failed to parse RTF file: RTF file not found: " + path)
    ensures file.None? ==> r.extractedText == "" && r.fileSizeBytes == 0 && r.totalLines == 0 && r.totalTextLength == 0
    ensures file.Some? ==> r.fileSizeBytes == file.value.size
  {
    match file
    case None =>
      RtfResult(path, Basename(path), "rtf", "", 0, 0, 0,
        Some("Failed to parse RTF file: RTF file not found: " + path))
    case Some(f) =>
      var text := match converted
        case Some(t) => t
        case None => SimpleRtfExtract(f.content);
      RtfResult(path, Basename(path), "rtf", Strip(text), f.size, |SplitLines(text)|, |text|, None)
  }

  /**
   * The extracted text is the converter's output stripped, while the reported length is that
   * of the unstripped output; on the fallback path the two agree.
   */
  lemma ParseRtfLengths(path: string, f: RtfFile, converted: Option<string>)
    ensures var r := ParseRtf(path, Some(f), converted);
      r.totalTextLength >= |r.extractedText|
      && (converted.Some? ==> r.extractedText == Strip(converted.value) && r.totalTextLength == |converted.value|)
      && (converted.None? ==> r.extractedText == SimpleRtfExtract(f.content) && r.totalTextLength == |r.extractedText|)
  {
    StripShape(match converted case Some(t) => t case None => SimpleRtfExtract(f.content));
    if converted.None? {
      var t := SimpleRtfExtract(f.content);
      ExtractSpacing(f.content);
      assert TrimStart(t) == t;
      assert TrimEnd(t) == t;
    }
  }

  predicate IsSupported(path: string)
  {
    EndsWith(Lower(path), ".rtf")
  }

  function SupportedFormats(): seq<string>
  {
    [".rtf"]
  }
}
