/** Choosing which spreadsheet columns hold the name and the role. Both
    scripts take the first header that mentions "nombre" and the first that
    mentions "cargo", ignoring case; when either is missing, a sheet of
    exactly two columns is read as (name, role), and any other sheet is
    rejected. generador.js lower-cases the header and searches it;
    index.js runs a case-insensitive regular expression. */
module Headers {
  import opened Text

  datatype Option<T> = None | Some(value: T)

  /** The outcome of header detection: the two chosen keys, or the
      "invalid headers" exit. */
  datatype Detection = Columns(nameKey: string, roleKey: string) | InvalidHeaders

  /** `headers.find(matches)`, as the index of the first header that matches. */
  function Find(headers: seq<string>, matches: string -> bool): (r: Option<nat>)
    ensures r.Some? ==> r.value < |headers| && matches(headers[r.value])
    ensures r.Some? ==> forall j :: 0 <= j < r.value ==> !matches(headers[j])
    ensures r.None? <==> NoneMatch(headers, matches)
  {
    if headers == [] then None
    else if matches(headers[0]) then Some(0)
    else match Find(headers[1..], matches)
      case None => None
      case Some(k) => Some(k + 1)
  }

  predicate NoneMatch(headers: seq<string>, matches: string -> bool) {
    forall j :: 0 <= j < |headers| ==> !matches(headers[j])
  }

  /** key is the first header that matches. */
  predicate IsFirstMatch(headers: seq<string>, matches: string -> bool, key: string) {
    exists i :: 0 <= i < |headers| && headers[i] == key && matches(headers[i])
      && forall j :: 0 <= j < i ==> !matches(headers[j])
  }

  /** The detection rule, for given tests of "is a name header" and
      "is a role header". */
  function Detect(headers: seq<string>, isName: string -> bool, isRole: string -> bool): (d: Detection)
    ensures d.InvalidHeaders? <==>
      |headers| != 2 && (NoneMatch(headers, isName) || NoneMatch(headers, isRole))
    ensures !NoneMatch(headers, isName) && !NoneMatch(headers, isRole) ==>
      d.Columns? && IsFirstMatch(headers, isName, d.nameKey) && IsFirstMatch(headers, isRole, d.roleKey)
    ensures (NoneMatch(headers, isName) || NoneMatch(headers, isRole)) && |headers| == 2 ==>
      d == Columns(headers[0], headers[1])
  {
    var n := Find(headers, isName);
    var c := Find(headers, isRole);
    if n.Some? && c.Some? then Columns(headers[n.value], headers[c.value])
    else if |headers| == 2 then Columns(headers[0], headers[1])
    else InvalidHeaders
  }

  /** generador.js: `h.toLowerCase().includes('nombre')`. */
  predicate NameHeader(h: string) { Contains(Lower(h), "nombre") }

  /** generador.js: `h.toLowerCase().includes('cargo')`. */
  predicate RoleHeader(h: string) { Contains(Lower(h), "cargo") }

  /** index.js: `/nombre/i.test(h)`. */
  predicate NameHeaderPattern(h: string) { ContainsIgnoringCase(h, "nombre") }

  /** index.js: `/cargo/i.test(h)`. */
  predicate RoleHeaderPattern(h: string) { ContainsIgnoringCase(h, "cargo") }

  /** Header detection in generador.js. */
  function DetectColumns(headers: seq<string>): Detection {
    Detect(headers, NameHeader, RoleHeader)
  }

  /** Two tests that agree on every header find the same one. */
  lemma {:induction false} FindAgrees(headers: seq<string>, m1: string -> bool, m2: string -> bool)
    requires forall j :: 0 <= j < |headers| ==> m1(headers[j]) == m2(headers[j])
    ensures Find(headers, m1) == Find(headers, m2)
  {
    if headers != [] {
      FindAgrees(headers[1..], m1, m2);
    }
  }

  /** Header detection in index.js, which chooses the same columns as
      generador.js on every header list. */
  function DetectColumnsByPattern(headers: seq<string>): (d: Detection)
    ensures d == DetectColumns(headers)
  {
    forall j | 0 <= j < |headers|
      ensures NameHeaderPattern(headers[j]) == NameHeader(headers[j])
      ensures RoleHeaderPattern(headers[j]) == RoleHeader(headers[j])
    {
      IgnoringCaseIsLowerContains(headers[j], "nombre");
      IgnoringCaseIsLowerContains(headers[j], "cargo");
    }
    FindAgrees(headers, NameHeaderPattern, NameHeader);
    FindAgrees(headers, RoleHeaderPattern, RoleHeader);
    Detect(headers, NameHeaderPattern, RoleHeaderPattern)
  }
}
