/**
 The X-Auth-Policy header (internal/server/handlers.go, parsePolicy): a list of
 fields separated by semicolons, "any", "domains=<list>", "groups=<list>" and
 "guests=allow". One field outside this grammar spoils the rest.
 */
module Policy {
  import opened Prelude
  import opened Strings

  datatype Parsed = Parsed(domains: string, groups: string, allowGuests: bool, ok: bool)

  const INVALID := Parsed("", "", false, false)

  /** What has been read so far. */
  datatype Fields = Fields(domains: string, groups: string, allowGuests: bool, sawAny: bool)

  /** Cut at the first '=': the parts before and after it, if there is one. */
  function Cut(s: string): Option<(string, string)> {
    if s == "" then Option.None
    else if s[0] == '=' then Some(("", s[1..]))
    else match Cut(s[1..])
      case None => Option.None
      case Some((k, v)) => Some(([s[0]] + k, v))
  }

  /** Read one field, already trimmed and not blank. */
  function Read(f: Fields, field: string): Option<Fields> {
    if field == "any" then Some(f.(sawAny := true))
    else match Cut(field)
      case None => Option.None
      case Some((k0, v0)) =>
        var k, v := Trim(k0), Trim(v0);
        if k == "domains" && v != "" then Some(f.(domains := v))
        else if k == "groups" && v != "" then Some(f.(groups := v))
        else if k == "guests" && v == "allow" then Some(f.(allowGuests := true))
        else Option.None
  }

  function ReadAll(fields: seq<string>): Option<Fields> {
    if fields == [] then Some(Fields("", "", false, false))
    else match ReadAll(fields[..|fields| - 1])
      case None => Option.None
      case Some(f) =>
        var field := Trim(fields[|fields| - 1]);
        if field == "" then Some(f) else Read(f, field)
  }

  function Result(f: Fields): Parsed {
    if f.sawAny == (f.domains != "" || f.groups != "") then INVALID
    else Parsed(f.domains, f.groups, f.allowGuests, true)
  }

  function Parse(h: string): Parsed {
    match ReadAll(Split(h, IsSemicolon))
    case None => INVALID
    case Some(f) => Result(f)
  }

  lemma ReadAllNext(fields: seq<string>, i: nat)
    requires i < |fields| && ReadAll(fields[..i]).Some?
    ensures var f, field := ReadAll(fields[..i]).value, Trim(fields[i]);
            ReadAll(fields[..i + 1]) == if field == "" then Some(f) else Read(f, field)
  {
    assert fields[..i + 1][..i] == fields[..i];
  }

  method ParsePolicy(h: string) returns (domains: string, groups: string, allowGuests: bool, ok: bool)
    ensures Parsed(domains, groups, allowGuests, ok) == Parse(h)
  {
    domains, groups, allowGuests := "", "", false;
    var sawAny := false;
    var fields := Split(h, IsSemicolon);
    for i := 0 to |fields|
      invariant ReadAll(fields[..i]) == Some(Fields(domains, groups, allowGuests, sawAny))
    {
      ReadAllNext(fields, i);
      var field := Trim(fields[i]);
      if field == "" {
        continue;
      }
      if field == "any" {
        sawAny := true;
        continue;
      }
      var cut := Cut(field);
      if cut.Some? {
        var k, v := Trim(cut.value.0), Trim(cut.value.1);
        if k == "domains" && v != "" {
          domains := v;
          continue;
        } else if k == "groups" && v != "" {
          groups := v;
          continue;
        } else if k == "guests" && v == "allow" {
          allowGuests := true;
          continue;
        }
      }
      StaysInvalid(fields, i + 1);
      assert fields[..|fields|] == fields;
      return "", "", false, false;
    }
    assert fields[..|fields|] == fields;
    var hasList := domains != "" || groups != "";
    if sawAny == hasList {
      return "", "", false, false;
    }
    return domains, groups, allowGuests, true;
  }

  /** One bad field spoils the whole header. */
  lemma {:induction false} StaysInvalid(fields: seq<string>, n: nat)
    requires n <= |fields| && ReadAll(fields[..n]).None?
    ensures ReadAll(fields).None?
    decreases |fields| - n
  {
    if n == |fields| {
      assert fields[..n] == fields;
    } else {
      assert fields[..n + 1][..n] == fields[..n];
      StaysInvalid(fields, n + 1);
    }
  }

  // ---------- what a well-formed header means ----------

  /** The field is one of the grammar's: blank, "any", or a key with its value. */
  predicate Legal(field: string) {
    var t := Trim(field);
    || t == "" || t == "any"
    || (Cut(t).Some? &&
        var (k, v) := (Trim(Cut(t).value.0), Trim(Cut(t).value.1));
        (k in {"domains", "groups"} && v != "") || (k == "guests" && v == "allow"))
  }

  predicate Names(field: string, key: string) {
    var t := Trim(field);
    t != "any" && Cut(t).Some? && Trim(Cut(t).value.0) == key
  }

  predicate IsAny(field: string) { Trim(field) == "any" }

  /** Some field satisfies p. */
  ghost predicate Any(fields: seq<string>, p: string -> bool) { exists i :: 0 <= i < |fields| && p(fields[i]) }

  ghost predicate All(fields: seq<string>, p: string -> bool) { forall i :: 0 <= i < |fields| ==> p(fields[i]) }

  lemma AnyLast(fields: seq<string>, p: string -> bool)
    requires fields != []
    ensures Any(fields, p) <==> Any(fields[..|fields| - 1], p) || p(fields[|fields| - 1])
    ensures All(fields, p) <==> All(fields[..|fields| - 1], p) && p(fields[|fields| - 1])
  {
  }

  predicate NamesDomains(field: string) { Names(field, "domains") }
  predicate NamesGroups(field: string) { Names(field, "groups") }
  predicate NamesGuests(field: string) { Names(field, "guests") }

  /** What reading one field adds to what has been read. */
  lemma ReadMeans(f: Fields, field: string)
    ensures var r := if Trim(field) == "" then Some(f) else Read(f, Trim(field));
            && (r.Some? <==> Legal(field))
            && (r.Some? ==>
                  && (r.value.sawAny <==> f.sawAny || IsAny(field))
                  && (r.value.allowGuests <==> f.allowGuests || NamesGuests(field))
                  && (r.value.domains != "" <==> f.domains != "" || NamesDomains(field))
                  && (r.value.groups != "" <==> f.groups != "" || NamesGroups(field)))
  {
  }

  lemma {:induction false} ReadAllMeans(fields: seq<string>)
    ensures ReadAll(fields).Some? <==> All(fields, Legal)
    ensures ReadAll(fields).Some? ==>
              var f := ReadAll(fields).value;
              && (f.sawAny <==> Any(fields, IsAny)) && (f.allowGuests <==> Any(fields, NamesGuests))
              && (f.domains != "" <==> Any(fields, NamesDomains)) && (f.groups != "" <==> Any(fields, NamesGroups))
    decreases |fields|
  {
    if fields == [] {
    } else {
      var front := ReadAll(fields[..|fields| - 1]);
      ReadAllMeans(fields[..|fields| - 1]);
      if front.Some? {
        ReadMeans(front.value, fields[|fields| - 1]);
      }
      AnyLast(fields, Legal);
      AnyLast(fields, IsAny);
      AnyLast(fields, NamesGuests);
      AnyLast(fields, NamesDomains);
      AnyLast(fields, NamesGroups);
    }
  }

  /** A header is accepted exactly when every field is in the grammar and it says
      either "any" or a list, not both; and an accepted header grants without a
      list only when it says "any". */
  lemma AcceptedExactly(h: string)
    ensures var fields := Split(h, IsSemicolon);
            var lists := Any(fields, NamesDomains) || Any(fields, NamesGroups);
            && (Parse(h).ok <==> All(fields, Legal) && (Any(fields, IsAny) <==> !lists))
            && (Parse(h).ok ==>
                  && (Parse(h).domains == "" && Parse(h).groups == "" <==> Any(fields, IsAny))
                  && (Parse(h).allowGuests <==> Any(fields, NamesGuests)))
            && (!Parse(h).ok ==> Parse(h) == INVALID)
  {
    ReadAllMeans(Split(h, IsSemicolon));
  }

  // ---------- printing and parsing ----------

  /** A policy as a guard declares it; an empty list is left out. */
  datatype Guard = Guard(domains: string, groups: string, allowGuests: bool)

  ghost predicate WellFormed(g: Guard) {
    && Trimmed(g.domains) && Trimmed(g.groups)
    && Lacks(g.domains, IsSemicolon) && Lacks(g.groups, IsSemicolon)
  }

  /** key=value, left out when the value is blank. */
  function Field(key: string, value: string): seq<string> {
    if value == "" then [] else [key + "=" + value]
  }

  function PrintedFields(g: Guard): seq<string> {
    (if g.domains == "" && g.groups == "" then ["any"] else [])
    + Field("domains", g.domains) + Field("groups", g.groups) + Field("guests", if g.allowGuests then "allow" else "")
  }

  function Printed(g: Guard): string { Join(PrintedFields(g), ';') }

  lemma {:induction false} CutAtFirst(k: string, v: string)
    requires forall i :: 0 <= i < |k| ==> k[i] != '='
    ensures Cut(k + "=" + v) == Some((k, v))
  {
    var s := k + "=" + v;
    if k == "" {
      assert s[1..] == v;
    } else {
      assert s[1..] == k[1..] + "=" + v;
      CutAtFirst(k[1..], v);
      assert [k[0]] + k[1..] == k;
    }
  }

  /** The fields read so far with one more key set, if its value is not blank. */
  function With(f: Fields, key: string, value: string): Fields {
    if value == "" then f
    else if key == "domains" then f.(domains := value)
    else if key == "groups" then f.(groups := value)
    else f.(allowGuests := true)
  }

  lemma KeyValueReads(f: Fields, k: string, v: string)
    requires k in {"domains", "groups", "guests"} && v != "" && Trimmed(v) && (k == "guests" ==> v == "allow")
    ensures var field := k + "=" + v;
            Trim(field) == field != "" && Read(f, field) == Some(With(f, k, v))
  {
    CutAtFirst(k, v);
    var field := k + "=" + v;
    TrimOfTrimmed(field);
    TrimOfTrimmed(k);
    TrimOfTrimmed(v);
    assert field[0] != 'a';
  }

  lemma ReadAllSnoc(fields: seq<string>, field: string)
    requires Trim(field) == field != ""
    ensures ReadAll(fields + [field]) == match ReadAll(fields) case None => Option.None case Some(f) => Read(f, field)
  {
  }

  lemma FieldReads(fields: seq<string>, f: Fields, k: string, v: string)
    requires k in {"domains", "groups", "guests"} && Trimmed(v) && (k == "guests" && v != "" ==> v == "allow")
    requires ReadAll(fields) == Some(f)
    ensures ReadAll(fields + Field(k, v)) == Some(With(f, k, v))
  {
    if v == "" {
      assert fields + Field(k, v) == fields;
    } else {
      KeyValueReads(f, k, v);
      ReadAllSnoc(fields, k + "=" + v);
    }
  }

  ghost predicate Uncut(fields: seq<string>) { forall i :: 0 <= i < |fields| ==> Lacks(fields[i], IsSemicolon) }

  lemma FieldUncut(key: string, value: string)
    requires Lacks(key, IsSemicolon) && Lacks(value, IsSemicolon)
    ensures Uncut(Field(key, value))
  {
  }

  lemma UncutAppend(a: seq<string>, b: seq<string>)
    requires Uncut(a) && Uncut(b)
    ensures Uncut(a + b)
  {
  }

  /** No printed field holds a semicolon. */
  lemma PrintedFieldsUncut(g: Guard)
    requires WellFormed(g)
    ensures Uncut(PrintedFields(g))
  {
    var first := if g.domains == "" && g.groups == "" then ["any"] else [];
    var guests := if g.allowGuests then "allow" else "";
    FieldUncut("domains", g.domains);
    FieldUncut("groups", g.groups);
    FieldUncut("guests", guests);
    UncutAppend(first, Field("domains", g.domains));
    UncutAppend(first + Field("domains", g.domains), Field("groups", g.groups));
    UncutAppend(first + Field("domains", g.domains) + Field("groups", g.groups), Field("guests", guests));
  }

  lemma PrintedReads(g: Guard)
    requires WellFormed(g)
    ensures ReadAll(PrintedFields(g)) ==
            Some(Fields(g.domains, g.groups, g.allowGuests, g.domains == "" && g.groups == ""))
  {
    var guests := if g.allowGuests then "allow" else "";
    var first := if g.domains == "" && g.groups == "" then ["any"] else [];
    var f0 := Fields("", "", false, first != []);
    AnyReads();
    var f1, f2 := With(f0, "domains", g.domains), With(With(f0, "domains", g.domains), "groups", g.groups);
    FieldReads(first, f0, "domains", g.domains);
    FieldReads(first + Field("domains", g.domains), f1, "groups", g.groups);
    FieldReads(first + Field("domains", g.domains) + Field("groups", g.groups), f2, "guests", guests);
  }

  /** Parsing a printed policy gives back its lists and its guests flag. */
  lemma ParsingUndoesPrinting(g: Guard)
    requires WellFormed(g)
    ensures Parse(Printed(g)) == Parsed(g.domains, g.groups, g.allowGuests, true)
  {
    PrintedReads(g);
    PrintedIsSplit(g);
  }

  lemma PrintedIsSplit(g: Guard)
    requires WellFormed(g)
    ensures Split(Printed(g), IsSemicolon) == PrintedFields(g)
  {
    PrintedFieldsUncut(g);
    SplitJoin(PrintedFields(g), ';', IsSemicolon);
  }

  lemma AnyReads()
    ensures ReadAll(["any"]) == Some(Fields("", "", false, true)) && Lacks("any", IsSemicolon)
  {
  }
}
