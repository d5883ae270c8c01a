/**
 * `NetcdfIdentifiedObject`: the name plumbing shared by all netCDF wrappers.
 * An object is its own identifier; its code is the name of the wrapped netCDF
 * object and its code space the constant "netCDF".
 */
module Identified {
  import opened Wrappers

  /** An identified netCDF object, reduced to the code (`getCode`) its subclass supplies. */
  datatype IdentifiedObject = IdentifiedObject(code: string)

  /** `getCodeSpace`. */
  function GetCodeSpace(obj: IdentifiedObject): string { "netCDF" }

  /** `getName`: the object is its own name. */
  function GetName(obj: IdentifiedObject): IdentifiedObject { obj }

  /** `getIdentifiers`: netCDF objects have no identifier besides their name. */
  function GetIdentifiers(obj: IdentifiedObject): set<IdentifiedObject> { {} }

  /** `getAlias`: netCDF objects have no alias. */
  function GetAlias(obj: IdentifiedObject): seq<string> { [] }

  /** `toWKT`: Well-Known Text formatting is not supported. */
  function ToWKT(obj: IdentifiedObject): Result<string> { Failure(UnsupportedOperation) }

  /** The constant accessors: code space "netCDF", name = the object itself, no identifiers, no alias, no WKT. */
  lemma ConstantAccessors(obj: IdentifiedObject)
    ensures GetCodeSpace(obj) == "netCDF"
    ensures GetName(obj).code == obj.code
    ensures GetIdentifiers(obj) == {} && GetAlias(obj) == []
    ensures ToWKT(obj) == Failure(UnsupportedOperation)
  {
  }

  /** The characters `String.trim` removes: every character up to and including the space. */
  predicate Blank(c: char) { c <= ' ' }

  /** The number of blank characters at the start of `s`. */
  function LeadingBlanks(s: string): (k: nat)
    ensures k <= |s|
    ensures forall i :: 0 <= i < k ==> Blank(s[i])
    ensures k < |s| ==> !Blank(s[k])
  {
    if s == [] || !Blank(s[0]) then 0 else 1 + LeadingBlanks(s[1..])
  }

  /** The number of blank characters at the end of `s`. */
  function TrailingBlanks(s: string): (k: nat)
    ensures k <= |s|
    ensures forall i :: |s| - k <= i < |s| ==> Blank(s[i])
    ensures k < |s| ==> !Blank(s[|s| - 1 - k])
  {
    if s == [] || !Blank(s[|s| - 1]) then 0 else 1 + TrailingBlanks(s[..|s| - 1])
  }

  /**
   * `String.trim`: `s` without its leading and trailing blanks. The result is
   * the slice of `s` that starts after the leading blanks; everything around it
   * is blank, and it neither starts nor ends with a blank.
   */
  function Trim(s: string): (r: string)
    ensures |r| <= |s|
    ensures LeadingBlanks(s) + |r| <= |s| && r == s[LeadingBlanks(s)..LeadingBlanks(s) + |r|]
    ensures forall i :: 0 <= i < LeadingBlanks(s) ==> Blank(s[i])
    ensures forall i :: LeadingBlanks(s) + |r| <= i < |s| ==> Blank(s[i])
    ensures r != [] ==> !Blank(r[0]) && !Blank(r[|r| - 1])
  {
    var rest := s[LeadingBlanks(s)..];
    rest[..|rest| - TrailingBlanks(rest)]
  }

  /** Trimming twice is trimming once. */
  lemma TrimIdempotent(s: string)
    ensures Trim(Trim(s)) == Trim(s)
  {
    var r := Trim(s);
    if r != [] {
      assert LeadingBlanks(r) == 0;
      assert TrailingBlanks(r) == 0;
    }
  }

  /**
   * `toString`: "netCDF:" followed by the trimmed code, in double quotes when
   * the trimmed code contains a space.
   */
  method ToString(obj: IdentifiedObject) returns (s: string)
    ensures |s| >= 7 && s[..7] == GetCodeSpace(obj) + [':']
    ensures var name := Trim(obj.code);
      (' ' in name ==> |s| == 9 + |name| && s[7] == '"' && s[8..|s| - 1] == name && s[|s| - 1] == '"') &&
      (' ' !in name ==> s[7..] == name)
  {
    var buffer := GetCodeSpace(obj) + [':'];
    var name := Trim(obj.code);
    var needsQuote := ' ' in name;
    if needsQuote {
      buffer := buffer + ['"'];
    }
    buffer := buffer + name;
    if needsQuote {
      buffer := buffer + ['"'];
    }
    s := buffer;
  }
}
