// The compliance-standards service: choosing the standards directory, resolving a file name
// to the standard's full name, and looking one document up by name. The directory listing and
// the file timestamps are left out; which files exist, and their sizes, is a parameter.

module Compliance {
  import opened Wrappers
  import opened Strings

  /** The known standards, in the order of the service's table. */
  const StandardNames: seq<(string, string)> := [
    ("ISO_27001", "ISO/IEC 27001 - Information Security Management Systems"),
    ("NIST_CSF", "NIST Cybersecurity Framework"),
    ("NIST.CSWP.29", "NIST Cybersecurity Framework (CSWP.29)"),
    ("HIPAA", "Health Insurance Portability and Accountability Act (HIPAA)"),
    ("GDPR", "General Data Protection Regulation (GDPR)"),
    ("SOX", "Sarbanes-Oxley Act (SOX)"),
    ("PCI_DSS", "Payment Card Industry Data Security Standard (PCI-DSS)"),
    ("SOC2", "Service Organization Control 2 (SOC 2)"),
    ("COBIT", "Control Objectives for Information and Related Technologies (COBIT)"),
    ("ITIL", "Information Technology Infrastructure Library (ITIL)"),
    ("COSO", "Committee of Sponsoring Organizations (COSO)"),
    ("FFIEC", "Federal Financial Institutions Examination Council (FFIEC)")]

  predicate DistinctKeys(table: seq<(string, string)>)
  {
    forall i, j :: 0 <= i < j < |table| ==> table[i].0 != table[j].0
  }

  /** The value stored under `key`, if any (the dict lookup). */
  function Exact(key: string, table: seq<(string, string)>): Option<string>
  {
    if table == [] then None
    else if table[0].0 == key then Some(table[0].1)
    else Exact(key, table[1..])
  }

  /** A key and a file name match when either contains the other, ignoring case. */
  predicate PartialMatch(key: string, filename: string)
  {
    Contains(Lower(filename), Lower(key)) || Contains(Lower(key), Lower(filename))
  }

  /** The value of the first entry whose key matches the file name partially. */
  function FirstPartial(filename: string, table: seq<(string, string)>): Option<string>
  {
    if table == [] then None
    else if PartialMatch(table[0].0, filename) then Some(table[0].1)
    else FirstPartial(filename, table[1..])
  }

  /** The formatted file name: underscores and dots become spaces, then title case. */
  function Formatted(filename: string): string
  {
    Title(ReplaceChar(ReplaceChar(filename, '_', ' '), '.', ' '))
  }

  /** Exact key, else the first partial match, else the formatted name. */
  function Resolve(filename: string, table: seq<(string, string)>): string
  {
    match Exact(filename, table)
    case Some(v) => v
    case None =>
      match FirstPartial(filename, table)
      case Some(v) => v
      case None => Formatted(filename)
  }

  /** _get_full_standard_name. */
  function FullStandardName(filename: string): string
  {
    Resolve(filename, StandardNames)
  }

  lemma {:induction false} ExactFinds(table: seq<(string, string)>, i: nat)
    requires DistinctKeys(table) && i < |table|
    ensures Exact(table[i].0, table) == Some(table[i].1)
  {
    if i > 0 {
      assert table[0].0 != table[i].0;
      ExactFinds(table[1..], i - 1);
    }
  }

  lemma {:induction false} ExactMisses(key: string, table: seq<(string, string)>)
    ensures Exact(key, table).None? <==> forall i :: 0 <= i < |table| ==> table[i].0 != key
  {
    if table != [] {
      ExactMisses(key, table[1..]);
      assert forall i :: 1 <= i < |table| ==> table[i] == table[1..][i - 1];
    }
  }

  lemma StandardKeysDistinct()
    ensures DistinctKeys(StandardNames)
  {
  }

  /** Every key of the table resolves to its own full name. */
  lemma ExactKeyWins(i: nat)
    requires i < |StandardNames|
    ensures FullStandardName(StandardNames[i].0) == StandardNames[i].1
  {
    StandardKeysDistinct();
    ExactFinds(StandardNames, i);
  }

  /**
   * The partial search answers the first matching entry: Some exactly when an entry matches,
   * and then the value of an entry that matches with no matching entry before it.
   */
  lemma {:induction false} FirstPartialIsFirst(filename: string, table: seq<(string, string)>)
    ensures FirstPartial(filename, table).None? <==>
      forall i :: 0 <= i < |table| ==> !PartialMatch(table[i].0, filename)
    ensures FirstPartial(filename, table).Some? ==>
      exists i :: 0 <= i < |table| && PartialMatch(table[i].0, filename)
        && FirstPartial(filename, table).value == table[i].1
        && forall j :: 0 <= j < i ==> !PartialMatch(table[j].0, filename)
  {
    if table != [] {
      FirstPartialIsFirst(filename, table[1..]);
      assert forall i :: 1 <= i < |table| ==> table[i] == table[1..][i - 1];
      if !PartialMatch(table[0].0, filename) && FirstPartial(filename, table[1..]).Some? {
        var i :| 0 <= i < |table[1..]| && PartialMatch(table[1..][i].0, filename)
          && FirstPartial(filename, table[1..]).value == table[1..][i].1
          && forall j :: 0 <= j < i ==> !PartialMatch(table[1..][j].0, filename);
        assert forall j :: 1 <= j < i + 1 ==> !PartialMatch(table[j].0, filename);
      }
    }
  }

  /**
   * A name that is no key resolves to the first partially matching entry, and without one to
   * its formatted form, which has the same length and no underscore or dot.
   */
  lemma FullNameOfOther(filename: string)
    requires forall i :: 0 <= i < |StandardNames| ==> StandardNames[i].0 != filename
    ensures FullStandardName(filename) ==
      (if FirstPartial(filename, StandardNames).Some? then FirstPartial(filename, StandardNames).value
       else Formatted(filename))
    ensures FirstPartial(filename, StandardNames).None? ==>
      |FullStandardName(filename)| == |filename|
      && forall i :: 0 <= i < |filename| ==> FullStandardName(filename)[i] !in {'_', '.'}
  {
    ExactMisses(filename, StandardNames);
    FormattedShape(filename);
  }

  lemma FormattedShape(filename: string)
    ensures |Formatted(filename)| == |filename|
    ensures forall i :: 0 <= i < |filename| ==> Formatted(filename)[i] !in {'_', '.'}
  {
    var spaced := ReplaceChar(ReplaceChar(filename, '_', ' '), '.', ' ');
    forall i | 0 <= i < |filename| ensures Formatted(filename)[i] !in {'_', '.'} {
      assert spaced[i] != '_' && spaced[i] != '.';
      assert Formatted(filename)[i] == TitleCharAt(spaced, i);
    }
  }

  /** The empty name is contained in every key, so it resolves to the first standard. */
  lemma EmptyNameIsFirstStandard()
    ensures FullStandardName("") == "ISO/IEC 27001 - Information Security Management Systems"
  {
    EmptyResolvesToFirst(StandardNames);
  }

  lemma EmptyResolvesToFirst(table: seq<(string, string)>)
    requires table != [] && forall i :: 0 <= i < |table| ==> table[i].0 != ""
    ensures Resolve("", table) == table[0].1
  {
    ExactMisses("", table);
    assert OccursAt(Lower(table[0].0), Lower(""), 0);
    assert PartialMatch(table[0].0, "");
  }

  // ---------------------------------------------------------------- directories and lookup

  datatype StandardType = Government | Industry

  const BasePath: string := "data/standards"

  /** The standard_type check both operations make first: anything else raises ValueError. */
  function StandardDirectory(standardType: string): (r: Result<(StandardType, string), string>)
  {
    if standardType == "government" then Ok((Government, BasePath + "/" + standardType))
    else if standardType == "industry" then Ok((Industry, BasePath + "/" + standardType))
    else Err("standard_type must be 'government' or 'industry'")
  }

  /** Only the two known names are accepted, each with its own directory. */
  lemma StandardTypeValidation(standardType: string)
    ensures StandardDirectory(standardType).Ok? <==> standardType in {"government", "industry"}
    ensures StandardDirectory(standardType).Ok? ==>
      StandardDirectory(standardType).value.1 == BasePath + "/" + standardType
  {
  }

  datatype StandardDocument = StandardDocument(
    filename: string, fullName: string, filePath: string, fileSize: nat, standardType: string)

  /** What get_document_by_filename raises. */
  datatype LookupError = ValueError(message: string) | FileNotFoundError(message: string)

  const PdfSuffix: string := ".pdf"

  /**
   * get_document_by_filename over `files`, the existing paths and their sizes: the type is
   * checked first, every ".pdf" is removed from the name, and the name plus ".pdf" is looked
   * up in the directory.
   */
  function DocumentByFilename(filename: string, standardType: string, files: map<string, nat>)
    : Result<StandardDocument, LookupError>
  {
    match StandardDirectory(standardType)
    case Err(m) => Err(ValueError(m))
    case Ok((_, dir)) =>
      var name := ReplaceAll(filename, PdfSuffix, "");
      var path := dir + "/" + name + PdfSuffix;
      if path !in files then Err(FileNotFoundError("Document " + name + " not found in " + standardType + " standards"))
      else Ok(StandardDocument(name, FullStandardName(name), path, files[path], standardType))
  }

  /**
   * A name without ".pdf" in it is unchanged by the removal, and the same name with the
   * extension appended loses exactly the extension.
   */
  lemma RemovePdf(stem: string)
    requires !Contains(stem, PdfSuffix)
    ensures ReplaceAll(stem, PdfSuffix, "") == stem
    ensures ReplaceAll(stem + PdfSuffix, PdfSuffix, "") == stem
  {
    var s := stem + PdfSuffix;
    assert OccursAt(s, PdfSuffix, |stem|);
    forall j | 0 <= j < |stem| ensures !OccursAt(s, PdfSuffix, j) {
      if j + |PdfSuffix| <= |stem| {
        assert s[j..j + |PdfSuffix|] == stem[j..j + |PdfSuffix|];
        assert !OccursAt(stem, PdfSuffix, j);
      } else if j + |PdfSuffix| <= |s| {
        assert s[j..j + |PdfSuffix|][|stem| - j] == s[|stem|] == '.';
        assert s[j..j + |PdfSuffix|][|stem| - j] != PdfSuffix[|stem| - j];
      }
    }
    assert Find(s, PdfSuffix) == |stem|;
    assert s[|stem| + |PdfSuffix|..] == [];
    assert ReplaceAll([], PdfSuffix, "") == [];
    assert s[..|stem|] == stem;
  }

  /** The name may be given with or without its extension: both find the same document. */
  lemma WithOrWithoutExtension(stem: string, standardType: string, files: map<string, nat>)
    requires !Contains(stem, PdfSuffix)
    ensures DocumentByFilename(stem + PdfSuffix, standardType, files) == DocumentByFilename(stem, standardType, files)
  {
    RemovePdf(stem);
  }

  /**
   * An unknown standard_type raises ValueError whatever the name; otherwise a missing file
   * raises FileNotFoundError and a found one reports its path and size, with the name without
   * ".pdf" and its full standard name.
   */
  lemma DocumentLookupOutcome(filename: string, standardType: string, files: map<string, nat>)
    ensures standardType !in {"government", "industry"} <==>
      DocumentByFilename(filename, standardType, files) == Err(ValueError("standard_type must be 'government' or 'industry'"))
    ensures DocumentByFilename(filename, standardType, files).Ok? ==>
      var d := DocumentByFilename(filename, standardType, files).value;
      var name := ReplaceAll(filename, PdfSuffix, "");
      && d.filename == name && d.fullName == FullStandardName(name)
      && d.filePath == BasePath + "/" + standardType + "/" + name + PdfSuffix
      && d.filePath in files && d.fileSize == files[d.filePath]
  {
  }
}
