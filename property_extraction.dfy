// The property extraction agent's deterministic parts: its enums, the cleaning of the language
// model's JSON answer, and the error answer. The model call itself (the prompt, Gemini and the
// JSON output parser) is the parameter `chain`; Python's float() is the parameter `toFloat`.

module PropertyExtraction {
  import opened Wrappers
  import opened Strings
  import opened PyValues

  // ------------------------------------------------------------ enums

  datatype PropertyType = Logistics | Industrial | Office | Retail | Residential | MixedUse
  datatype LeaseType = TripleNet | Gross | Net | AbsoluteNet
  datatype IndexationType = Cpi | Fixed | Market | NoIndexation
  datatype TenantGrade = APlus | A | BPlus | B | C | Unrated

  function PropertyTypeValue(p: PropertyType): string
  {
    match p
    case Logistics => "logistics"
    case Industrial => "industrial"
    case Office => "office"
    case Retail => "retail"
    case Residential => "residential"
    case MixedUse => "mixed_use"
  }

  function LeaseTypeValue(l: LeaseType): string
  {
    match l
    case TripleNet => "triple_net"
    case Gross => "gross"
    case Net => "net"
    case AbsoluteNet => "absolute_net"
  }

  function IndexationTypeValue(i: IndexationType): string
  {
    match i
    case Cpi => "cpi"
    case Fixed => "fixed"
    case Market => "market"
    case NoIndexation => "none"
  }

  function TenantGradeValue(g: TenantGrade): string
  {
    match g
    case APlus => "A+"
    case A => "A"
    case BPlus => "B+"
    case B => "B"
    case C => "C"
    case Unrated => "unrated"
  }

  /** Python's PropertyType(value): the member with that value, or a ValueError (None). */
  function PropertyTypeOf(s: string): Option<PropertyType>
  {
    if s == "logistics" then Some(Logistics)
    else if s == "industrial" then Some(Industrial)
    else if s == "office" then Some(Office)
    else if s == "retail" then Some(Retail)
    else if s == "residential" then Some(Residential)
    else if s == "mixed_use" then Some(MixedUse)
    else None
  }

  function LeaseTypeOf(s: string): Option<LeaseType>
  {
    if s == "triple_net" then Some(TripleNet)
    else if s == "gross" then Some(Gross)
    else if s == "net" then Some(Net)
    else if s == "absolute_net" then Some(AbsoluteNet)
    else None
  }

  function IndexationTypeOf(s: string): Option<IndexationType>
  {
    if s == "cpi" then Some(Cpi)
    else if s == "fixed" then Some(Fixed)
    else if s == "market" then Some(Market)
    else if s == "none" then Some(NoIndexation)
    else None
  }

  function TenantGradeOf(s: string): Option<TenantGrade>
  {
    if s == "A+" then Some(APlus)
    else if s == "A" then Some(A)
    else if s == "B+" then Some(BPlus)
    else if s == "B" then Some(B)
    else if s == "C" then Some(C)
    else if s == "unrated" then Some(Unrated)
    else None
  }

  /** Looking a member up by its value finds it, and finds nothing else. */
  lemma PropertyTypeLookup(p: PropertyType, s: string)
    ensures PropertyTypeOf(PropertyTypeValue(p)) == Some(p)
    ensures PropertyTypeOf(s).Some? ==> PropertyTypeValue(PropertyTypeOf(s).value) == s
  {
  }

  lemma LeaseTypeLookup(l: LeaseType, s: string)
    ensures LeaseTypeOf(LeaseTypeValue(l)) == Some(l)
    ensures LeaseTypeOf(s).Some? ==> LeaseTypeValue(LeaseTypeOf(s).value) == s
  {
  }

  lemma IndexationTypeLookup(i: IndexationType, s: string)
    ensures IndexationTypeOf(IndexationTypeValue(i)) == Some(i)
    ensures IndexationTypeOf(s).Some? ==> IndexationTypeValue(IndexationTypeOf(s).value) == s
  {
  }

  lemma TenantGradeLookup(g: TenantGrade, s: string)
    ensures TenantGradeOf(TenantGradeValue(g)) == Some(g)
    ensures TenantGradeOf(s).Some? ==> TenantGradeValue(TenantGradeOf(s).value) == s
  {
  }

  // ------------------------------------------------------------ cleaning, field by field

  const StringFields: seq<string> := ["property_name", "location", "country", "tenant_name",
    "access_details", "operational_details", "start_date"]

  const NumericFields: seq<string> := ["site_area_sqm", "gross_internal_area_sqm", "site_coverage_percent",
    "purchase_price", "total_costs", "gross_rental_income", "net_initial_yield",
    "lease_term_years", "break_clause_years", "break_penalty_months",
    "rent_per_sqm", "indexation_cap_percent", "landlord_capex", "tenant_capex",
    "target_ltv_percent", "senior_leverage_percent"]

  /** The enum mapping's keys, in its order. */
  const EnumFields: seq<string> := ["property_type", "lease_type", "indexation_type", "tenant_grade"]

  const CarryForward := "indexation_carry_forward"
  const Features := "special_features"

  /** The strings that read as true for the carry-forward flag. */
  const TrueWords: seq<string> := ["true", "1", "yes", "on"]

  datatype FieldKind = StringField | NumericField | EnumField

  /** The text float() is given: the value's str() without commas, euro signs or the letter m. */
  function NumberText(v: Value): string
  {
    ReplaceAll(ReplaceAll(ReplaceAll(PyStr(v), ",", ""), "\U{20AC}", ""), "m", "")
  }

  /** The text looked up in an enum: the value's str(), lower-cased, spaces turned into underscores. */
  function EnumText(v: Value): string
  {
    ReplaceChar(Lower(PyStr(v)), ' ', '_')
  }

  /** The canonical value for an enum field, or the field's default when the text is no member. */
  function EnumChoice(field: string, s: string): Option<string>
  {
    if field == "property_type" then
      Some(if PropertyTypeOf(s).Some? then s else PropertyTypeValue(Logistics))
    else if field == "lease_type" then
      Some(if LeaseTypeOf(s).Some? then s else LeaseTypeValue(TripleNet))
    else if field == "indexation_type" then
      Some(if IndexationTypeOf(s).Some? then s else IndexationTypeValue(Cpi))
    else if TenantGradeOf(s).Some? then Some(s)
    else None
  }

  /** What one loop writes under `field`, if anything. */
  function CleanField(kind: FieldKind, data: seq<(string, Value)>, field: string, toFloat: string -> Option<Value>): Option<Value>
  {
    if !HasKey(data, field) then None
    else
      var v := Get(data, field).value;
      match kind
      case StringField => if Truthy(v) then Some(VStr(Strip(PyStr(v)))) else None
      case NumericField => if v != VNone then toFloat(NumberText(v)) else None
      case EnumField =>
        if Truthy(v) then
          match EnumChoice(field, EnumText(v))
          case Some(s) => Some(VStr(s))
          case None => None
        else None
  }

  /** The dict after one loop has run over `fields`, starting from `acc`. */
  function Collected(acc: seq<(string, Value)>, kind: FieldKind, fields: seq<string>,
                     data: seq<(string, Value)>, toFloat: string -> Option<Value>): seq<(string, Value)>
  {
    if fields == [] then acc
    else
      var before := Collected(acc, kind, fields[..|fields| - 1], data, toFloat);
      var field := fields[|fields| - 1];
      match CleanField(kind, data, field, toFloat)
      case Some(v) => Put(before, field, v)
      case None => before
  }

  /** The list field: str(item).strip() of every truthy item, in order. */
  function FeatureList(items: seq<Value>): (r: seq<Value>)
  {
    if items == [] then []
    else
      var rest := FeatureList(items[..|items| - 1]);
      var item := items[|items| - 1];
      if Truthy(item) then rest + [VStr(Strip(PyStr(item)))] else rest
  }

  function CarryForwardValue(data: seq<(string, Value)>): Option<Value>
  {
    if HasKey(data, CarryForward) then Some(VBool(Lower(PyStr(Get(data, CarryForward).value)) in TrueWords))
    else None
  }

  function FeaturesValue(data: seq<(string, Value)>): Option<Value>
  {
    if HasKey(data, Features) && Get(data, Features).value.VList? then
      Some(VList(FeatureList(Get(data, Features).value.items)))
    else None
  }

  function PutSome(acc: seq<(string, Value)>, key: string, v: Option<Value>): seq<(string, Value)>
  {
    match v
    case Some(x) => Put(acc, key, x)
    case None => acc
  }

  /** The cleaned dict, loop after loop. */
  function Cleaned(data: seq<(string, Value)>, toFloat: string -> Option<Value>): seq<(string, Value)>
  {
    var strings := Collected([], StringField, StringFields, data, toFloat);
    var numbers := Collected(strings, NumericField, NumericFields, data, toFloat);
    var enums := Collected(numbers, EnumField, EnumFields, data, toFloat);
    PutSome(PutSome(enums, CarryForward, CarryForwardValue(data)), Features, FeaturesValue(data))
  }

  /** One of the three field loops of _clean_extracted_data. */
  method CleanFields(cleaned0: seq<(string, Value)>, kind: FieldKind, fields: seq<string>,
                     data: seq<(string, Value)>, toFloat: string -> Option<Value>)
    returns (cleaned: seq<(string, Value)>)
    ensures cleaned == Collected(cleaned0, kind, fields, data, toFloat)
  {
    cleaned := cleaned0;
    for i := 0 to |fields|
      invariant cleaned == Collected(cleaned0, kind, fields[..i], data, toFloat)
    {
      assert fields[..i + 1][..i] == fields[..i];
      var field := fields[i];
      if HasKey(data, field) {
        var v := Get(data, field).value;
        match kind {
          case StringField =>
            if Truthy(v) {
              cleaned := Put(cleaned, field, VStr(Strip(PyStr(v))));
            }
          case NumericField =>
            if v != VNone {
              var number := toFloat(NumberText(v));
              if number.Some? {
                cleaned := Put(cleaned, field, number.value);
              }
            }
          case EnumField =>
            if Truthy(v) {
              var choice := EnumChoice(field, EnumText(v));
              if choice.Some? {
                cleaned := Put(cleaned, field, VStr(choice.value));
              }
            }
        }
      }
    }
    assert fields[..|fields|] == fields;
  }

  /** The list comprehension over special_features. */
  method CleanFeatures(items: seq<Value>) returns (r: seq<Value>)
    ensures r == FeatureList(items)
  {
    r := [];
    for i := 0 to |items|
      invariant r == FeatureList(items[..i])
    {
      assert items[..i + 1][..i] == items[..i];
      if Truthy(items[i]) {
        r := r + [VStr(Strip(PyStr(items[i])))];
      }
    }
    assert items[..|items|] == items;
  }

  /** _clean_extracted_data: the field loops, then the flag, then the feature list. */
  method CleanExtractedData(data: seq<(string, Value)>, toFloat: string -> Option<Value>)
    returns (cleaned: seq<(string, Value)>)
    ensures cleaned == Cleaned(data, toFloat)
  {
    cleaned := CleanFields([], StringField, StringFields, data, toFloat);
    cleaned := CleanFields(cleaned, NumericField, NumericFields, data, toFloat);
    cleaned := CleanFields(cleaned, EnumField, EnumFields, data, toFloat);
    if HasKey(data, CarryForward) {
      var value := Lower(PyStr(Get(data, CarryForward).value));
      cleaned := Put(cleaned, CarryForward, VBool(value in TrueWords));
    }
    if HasKey(data, Features) && Get(data, Features).value.VList? {
      var features := CleanFeatures(Get(data, Features).value.items);
      cleaned := Put(cleaned, Features, VList(features));
    }
  }

  // ------------------------------------------------------------ properties of the cleaning

  /** A loop writes a key it lists exactly when the field cleans to something, and no other key. */
  lemma {:induction false} GetCollected(acc: seq<(string, Value)>, kind: FieldKind, fields: seq<string>,
                                        data: seq<(string, Value)>, toFloat: string -> Option<Value>, k: string)
    ensures Get(Collected(acc, kind, fields, data, toFloat), k) ==
      if k in fields && CleanField(kind, data, k, toFloat).Some? then CleanField(kind, data, k, toFloat)
      else Get(acc, k)
  {
    if fields != [] {
      var init := fields[..|fields| - 1];
      var last := fields[|fields| - 1];
      GetCollected(acc, kind, init, data, toFloat, k);
      MemberOfInit(fields, k);
    }
  }

  lemma MemberOfInit(fields: seq<string>, k: string)
    requires fields != []
    ensures k in fields <==> k in fields[..|fields| - 1] || k == fields[|fields| - 1]
  {
    assert fields == fields[..|fields| - 1] + [fields[|fields| - 1]];
  }

  /** No field is listed by two of the cleaning steps. */
  lemma FieldListsDisjoint(k: string)
    ensures k in EnumFields ==> k !in NumericFields && k !in StringFields
    ensures k in NumericFields ==> k !in StringFields
    ensures k == CarryForward || k == Features ==> k !in EnumFields && k !in NumericFields && k !in StringFields
    ensures CarryForward != Features
  {
  }

  /** What the cleaned dict holds under a key, decided by the one step that lists the key. */
  function FieldResult(data: seq<(string, Value)>, k: string, toFloat: string -> Option<Value>): Option<Value>
  {
    if k in StringFields then CleanField(StringField, data, k, toFloat)
    else if k in NumericFields then CleanField(NumericField, data, k, toFloat)
    else if k in EnumFields then CleanField(EnumField, data, k, toFloat)
    else if k == CarryForward then CarryForwardValue(data)
    else if k == Features then FeaturesValue(data)
    else None
  }

  /**
   * The field-by-field reading of the cleaning: every key holds what its own step computes from
   * the input's value under that key, and a key none of the steps lists is absent.
   */
  lemma CleanedByKey(data: seq<(string, Value)>, toFloat: string -> Option<Value>, k: string)
    ensures Get(Cleaned(data, toFloat), k) == FieldResult(data, k, toFloat)
  {
    var strings := Collected([], StringField, StringFields, data, toFloat);
    var numbers := Collected(strings, NumericField, NumericFields, data, toFloat);
    var enums := Collected(numbers, EnumField, EnumFields, data, toFloat);
    FieldListsDisjoint(k);
    GetCollected([], StringField, StringFields, data, toFloat, k);
    GetCollected(strings, NumericField, NumericFields, data, toFloat, k);
    GetCollected(numbers, EnumField, EnumFields, data, toFloat, k);
  }

  /** Only listed fields come out: every other key of the model's answer is dropped. */
  lemma OutputKeysListed(data: seq<(string, Value)>, toFloat: string -> Option<Value>, k: string)
    requires HasKey(Cleaned(data, toFloat), k)
    ensures k in StringFields || k in NumericFields || k in EnumFields || k == CarryForward || k == Features
  {
    CleanedByKey(data, toFloat, k);
  }

  /** A string field is kept only when truthy, as its str() stripped. */
  lemma StringFieldKept(data: seq<(string, Value)>, toFloat: string -> Option<Value>, k: string)
    requires k in StringFields
    ensures FieldResult(data, k, toFloat).Some? <==> HasKey(data, k) && Truthy(Get(data, k).value)
    ensures FieldResult(data, k, toFloat).Some? ==> FieldResult(data, k, toFloat) == Some(VStr(Strip(PyStr(Get(data, k).value))))
  {
  }

  /** An enum field holds what the enum loop computes for it. */
  lemma EnumFieldResult(data: seq<(string, Value)>, toFloat: string -> Option<Value>, k: string)
    requires k in EnumFields
    ensures FieldResult(data, k, toFloat) == CleanField(EnumField, data, k, toFloat)
  {
    FieldListsDisjoint(k);
  }

  /**
   * The three defaulted enums: a text is kept when it is the value of a member, and replaced by
   * logistics, triple_net or cpi otherwise, so these fields are present whenever the input's
   * value is truthy.
   */
  lemma EnumDefaults(k: string, s: string)
    requires k == "property_type" || k == "lease_type" || k == "indexation_type"
    ensures var valid := if k == "property_type" then PropertyTypeOf(s).Some?
                         else if k == "lease_type" then LeaseTypeOf(s).Some?
                         else IndexationTypeOf(s).Some?;
      var fallback := if k == "property_type" then "logistics" else if k == "lease_type" then "triple_net" else "cpi";
      EnumChoice(k, s) == Some(if valid then s else fallback)
  {
  }

  /** A string without upper-case letters. */
  predicate NoUpper(s: string)
  {
    forall i :: 0 <= i < |s| ==> !('A' <= s[i] <= 'Z')
  }

  /** Enum texts are lower case. */
  lemma EnumTextNoUpper(v: Value)
    ensures NoUpper(EnumText(v))
  {
  }

  /** The only tenant grade a lower-case text can name is "unrated". */
  lemma LowerGrade(s: string)
    requires NoUpper(s)
    ensures EnumChoice("tenant_grade", s) == if s == "unrated" then Some(s) else None
  {
    if s != [] {
      assert !('A' <= s[0] <= 'Z');
    }
  }

  /**
   * The input is lower-cased before the lookup but four of the tenant grades are written in
   * upper case, so a tenant grade survives only as "unrated" and is dropped otherwise.
   */
  lemma TenantGradeOnlyUnrated(data: seq<(string, Value)>, toFloat: string -> Option<Value>)
    ensures FieldResult(data, "tenant_grade", toFloat) in {None, Some(VStr("unrated"))}
    ensures FieldResult(data, "tenant_grade", toFloat) == Some(VStr("unrated")) <==>
      HasKey(data, "tenant_grade") && Truthy(Get(data, "tenant_grade").value) && EnumText(Get(data, "tenant_grade").value) == "unrated"
  {
    EnumFieldResult(data, toFloat, "tenant_grade");
    if HasKey(data, "tenant_grade") {
      var s := EnumText(Get(data, "tenant_grade").value);
      EnumTextNoUpper(Get(data, "tenant_grade").value);
      LowerGrade(s);
      assert CleanField(EnumField, data, "tenant_grade", toFloat) ==
        if Truthy(Get(data, "tenant_grade").value) && s == "unrated" then Some(VStr("unrated")) else None;
    }
  }

  /** The flag is present exactly when the input has the key, and true exactly for the listed words. */
  lemma CarryForwardRule(data: seq<(string, Value)>, toFloat: string -> Option<Value>)
    ensures FieldResult(data, CarryForward, toFloat).Some? <==> HasKey(data, CarryForward)
    ensures HasKey(data, CarryForward) ==>
      FieldResult(data, CarryForward, toFloat) == Some(VBool(Lower(PyStr(Get(data, CarryForward).value)) in TrueWords))
  {
    FieldListsDisjoint(CarryForward);
  }

  /** A string with no whitespace at either end. */
  predicate Trimmed(s: string)
  {
    s != [] ==> !IsSpace(s[0]) && !IsSpace(s[|s| - 1])
  }

  /** Every entry of a list is a string with no whitespace at either end. */
  predicate StrippedStrings(vs: seq<Value>)
  {
    forall i :: 0 <= i < |vs| ==> vs[i].VStr? && Trimmed(vs[i].s)
  }

  lemma StrippedSnoc(vs: seq<Value>, x: Value)
    requires StrippedStrings(vs) && x.VStr? && Trimmed(x.s)
    ensures StrippedStrings(vs + [x])
  {
    assert forall i :: 0 <= i < |vs| ==> (vs + [x])[i] == vs[i];
  }

  /** The feature list keeps at most one entry per item, each a stripped string. */
  lemma {:induction false} FeatureListShape(items: seq<Value>)
    ensures |FeatureList(items)| <= |items|
    ensures StrippedStrings(FeatureList(items))
  {
    if items != [] {
      var init := items[..|items| - 1];
      var item := items[|items| - 1];
      FeatureListShape(init);
      if Truthy(item) {
        StripShape(PyStr(item));
        StrippedSnoc(FeatureList(init), VStr(Strip(PyStr(item))));
      }
    }
  }

  /** Falsy items are dropped before stripping, so a whitespace-only item comes out empty. */
  lemma BlankFeature(s: string)
    requires s != "" && IsBlank(s)
    ensures FeatureList([VStr(s)]) == [VStr("")]
  {
    StripEmptyIffBlank(s);
    assert [VStr(s)][..0] == [];
    assert Truthy(VStr(s));
    assert FeatureList([VStr(s)]) == FeatureList([]) + [VStr(Strip(s))];
  }

  // ------------------------------------------------------------ the agent's answer

  /** The raw_text of an error answer: the text, cut to 500 characters plus "..." when longer. */
  function RawText(text: string): string
  {
    if |text| > 500 then text[..500] + "..." else text
  }

  /** extract_property_data: the cleaned answer, or the error dict when the chain raised. */
  function Extraction(text: string, chain: string -> Result<seq<(string, Value)>, string>,
                      toFloat: string -> Option<Value>): Value
  {
    match chain(text)
    case Ok(data) => VDict(Cleaned(data, toFloat))
    case Err(m) => VDict([("error", VStr("Failed to extract property data: " + m)), ("raw_text", VStr(RawText(text)))])
  }

  /** The raw text is at most 503 characters, the text itself when it has at most 500, and starts with its first 500. */
  lemma RawTextShape(text: string)
    ensures |RawText(text)| <= 503
    ensures |text| <= 500 ==> RawText(text) == text
    ensures StartsWith(RawText(text), text[..if |text| <= 500 then |text| else 500])
  {
    if |text| > 500 {
      assert RawText(text)[..500] == text[..500];
    }
  }

  /** A failed extraction answers with exactly two keys: the error message and the raw text. */
  lemma ExtractionError(text: string, chain: string -> Result<seq<(string, Value)>, string>,
                        toFloat: string -> Option<Value>)
    requires chain(text).Err?
    ensures var r := Extraction(text, chain, toFloat);
      && r.VDict? && Keys(r.entries) == ["error", "raw_text"]
      && Get(r.entries, "error") == Some(VStr("Failed to extract property data: " + chain(text).error))
      && Get(r.entries, "raw_text") == Some(VStr(RawText(text)))
  {
  }

  method ExtractPropertyData(text: string, chain: string -> Result<seq<(string, Value)>, string>,
                             toFloat: string -> Option<Value>) returns (r: Value)
    ensures r == Extraction(text, chain, toFloat)
  {
    var answer := chain(text);
    if answer.Err? {
      return VDict([("error", VStr("Failed to extract property data: " + answer.error)), ("raw_text", VStr(RawText(text)))]);
    }
    var cleaned := CleanExtractedData(answer.value, toFloat);
    r := VDict(cleaned);
  }
}
