/** The functional contract builder of `hari/cli/commands/contract.py`: one
    call that assembles the contract document from all of its fields.
    In Python the result holds the caller's `columns` list and the values
    taken from `output_table` and `sla` themselves, not copies; Dafny values
    are immutable, so the model says what the document holds when built and
    nothing about later updates through those shared objects. */
module ContractBuilder {
  import opened Wrappers
  import opened Document

  /** Python truthiness of an `Optional[Dict]`: present and non-empty. */
  predicate GivenDict(o: Option<seq<Entry>>) {
    o.Some? && o.value != []
  }

  /** The `output_table` sub-document: the five keys in a fixed order, each
      taken from `table` when there and defaulted otherwise. */
  function OutputTable(table: seq<Entry>, columns: seq<Value>): (r: seq<Entry>)
    ensures Keys(r) == ["name", "path", "format", "partitioned_by", "columns"]
    ensures Lookup(r, "name") == (if "name" in Keys(table) then Lookup(table, "name") else Some(Str("")))
    ensures Lookup(r, "path") == (if "path" in Keys(table) then Lookup(table, "path") else Some(Str("")))
    ensures Lookup(r, "format") == (if "format" in Keys(table) then Lookup(table, "format") else Some(Str("delta")))
    ensures Lookup(r, "partitioned_by") ==
      (if "partitioned_by" in Keys(table) then Lookup(table, "partitioned_by") else Some(List([])))
    ensures Lookup(r, "columns") == Some(List(columns))
  {
    var r := [
      Entry("name", Get(table, "name", Str(""))),
      Entry("path", Get(table, "path", Str(""))),
      Entry("format", Get(table, "format", Str("delta"))),
      Entry("partitioned_by", Get(table, "partitioned_by", List([]))),
      Entry("columns", List(columns)) ];
    assert Keys(r) == ["name", "path", "format", "partitioned_by", "columns"];
    LookupDistinct(r, 0); LookupDistinct(r, 1); LookupDistinct(r, 2); LookupDistinct(r, 3); LookupDistinct(r, 4);
    r
  }

  /** The `sla` sub-document: exactly `frequency` and `tolerance`, `''` for a
      missing one; every other key of the input is dropped. */
  function Sla(sla: seq<Entry>): (r: seq<Entry>)
    ensures Keys(r) == ["frequency", "tolerance"]
    ensures Lookup(r, "frequency") == (if "frequency" in Keys(sla) then Lookup(sla, "frequency") else Some(Str("")))
    ensures Lookup(r, "tolerance") == (if "tolerance" in Keys(sla) then Lookup(sla, "tolerance") else Some(Str("")))
  {
    var r := [
      Entry("frequency", Get(sla, "frequency", Str(""))),
      Entry("tolerance", Get(sla, "tolerance", Str(""))) ];
    assert Keys(r) == ["frequency", "tolerance"];
    LookupDistinct(r, 0); LookupDistinct(r, 1);
    r
  }

  function Optional(present: bool, e: Entry): seq<Entry> {
    if present then [e] else []
  }

  /** `contract(version, created_at, name, output_table, columns,
      description, owner_email, sla)`: its top-level keys are the three
      required ones, `description` and `owner_email` only when given, then
      `output_table`, then `sla` only when a non-empty mapping is given, and
      none of them twice. */
  function Contract(
    version: string, createdAt: string, name: string,
    outputTable: seq<Entry>, columns: seq<Value>,
    description: Option<string>, ownerEmail: Option<string>, sla: Option<seq<Entry>>
  ): (r: seq<Entry>)
    ensures Keys(r) == ContractKeys(Given(description), Given(ownerEmail), GivenDict(sla))
    ensures Distinct(Keys(r))
  {
    var d := Str(if description.Some? then description.value else "");
    var o := Str(if ownerEmail.Some? then ownerEmail.value else "");
    var t := Dict(OutputTable(outputTable, columns));
    var s := Dict(Sla(if sla.Some? then sla.value else []));
    ShapeKeys(Str(version), Str(createdAt), Str(name), d, o, t, s, Given(description), Given(ownerEmail), GivenDict(sla));
    Shape(Str(version), Str(createdAt), Str(name), d, o, t, s, Given(description), Given(ownerEmail), GivenDict(sla))
  }

  /** The keys the document has, in order, for a given choice of optional
      arguments. */
  function ContractKeys(hasDescription: bool, hasOwner: bool, hasSla: bool): seq<string> {
    ["hari_version", "created_at", "name"]
    + (if hasDescription then ["description"] else [])
    + (if hasOwner then ["owner_email"] else [])
    + ["output_table"]
    + (if hasSla then ["sla"] else [])
  }

  lemma OptionalKeys(present: bool, e: Entry)
    ensures Keys(Optional(present, e)) == if present then [e.key] else []
  {
  }

  /** The key order of any document assembled the way `Contract` does it. */
  lemma KeysOfShape(
    version: Value, createdAt: Value, name: Value, d: seq<Entry>, o: seq<Entry>, table: Value, s: seq<Entry>,
    hasDescription: bool, hasOwner: bool, hasSla: bool)
    requires Keys(d) == if hasDescription then ["description"] else []
    requires Keys(o) == if hasOwner then ["owner_email"] else []
    requires Keys(s) == if hasSla then ["sla"] else []
    ensures Keys([Entry("hari_version", version), Entry("created_at", createdAt), Entry("name", name)]
                 + d + o + [Entry("output_table", table)] + s)
      == ContractKeys(hasDescription, hasOwner, hasSla)
  {
    var h := [Entry("hari_version", version), Entry("created_at", createdAt), Entry("name", name)];
    var t := [Entry("output_table", table)];
    KeysAppend(h, d);
    KeysAppend(h + d, o);
    KeysAppend(h + d + o, t);
    KeysAppend(h + d + o + t, s);
  }

  /** Each entry of the document holds what its key promises: the three
      required inputs, `description` and `owner_email` exactly when they are
      non-empty strings (and then equal to them), the normalised output
      table with `columns` untouched, and the normalised SLA exactly when a
      non-empty mapping was passed. */
  lemma ContractFields(
    version: string, createdAt: string, name: string,
    outputTable: seq<Entry>, columns: seq<Value>,
    description: Option<string>, ownerEmail: Option<string>, sla: Option<seq<Entry>>)
    ensures var r := Contract(version, createdAt, name, outputTable, columns, description, ownerEmail, sla);
      && Lookup(r, "hari_version") == Some(Str(version))
      && Lookup(r, "created_at") == Some(Str(createdAt))
      && Lookup(r, "name") == Some(Str(name))
      && Lookup(r, "description") == (if Given(description) then Some(Str(description.value)) else None)
      && Lookup(r, "owner_email") == (if Given(ownerEmail) then Some(Str(ownerEmail.value)) else None)
      && Lookup(r, "output_table") == Some(Dict(OutputTable(outputTable, columns)))
      && Lookup(r, "sla") == (if GivenDict(sla) then Some(Dict(Sla(sla.value))) else None)
  {
    var d := Str(if description.Some? then description.value else "");
    var o := Str(if ownerEmail.Some? then ownerEmail.value else "");
    var t := Dict(OutputTable(outputTable, columns));
    var s := Dict(Sla(if sla.Some? then sla.value else []));
    ShapeRequired(Str(version), Str(createdAt), Str(name), d, o, t, s, Given(description), Given(ownerEmail), GivenDict(sla));
    ShapeOptional(Str(version), Str(createdAt), Str(name), d, o, t, s, Given(description), Given(ownerEmail), GivenDict(sla));
  }

  /** The document assembled the way `Contract` does it from given parts. */
  function Shape(
    version: Value, createdAt: Value, name: Value, description: Value, owner: Value, table: Value, sla: Value,
    hasDescription: bool, hasOwner: bool, hasSla: bool): seq<Entry>
  {
    [Entry("hari_version", version), Entry("created_at", createdAt), Entry("name", name)]
    + Optional(hasDescription, Entry("description", description))
    + Optional(hasOwner, Entry("owner_email", owner))
    + [Entry("output_table", table)]
    + Optional(hasSla, Entry("sla", sla))
  }

  lemma ShapeKeys(
    version: Value, createdAt: Value, name: Value, description: Value, owner: Value, table: Value, sla: Value,
    hasDescription: bool, hasOwner: bool, hasSla: bool)
    ensures Keys(Shape(version, createdAt, name, description, owner, table, sla, hasDescription, hasOwner, hasSla))
      == ContractKeys(hasDescription, hasOwner, hasSla)
    ensures Distinct(ContractKeys(hasDescription, hasOwner, hasSla))
  {
    var d := Optional(hasDescription, Entry("description", description));
    var o := Optional(hasOwner, Entry("owner_email", owner));
    var s := Optional(hasSla, Entry("sla", sla));
    OptionalKeys(hasDescription, Entry("description", description));
    OptionalKeys(hasOwner, Entry("owner_email", owner));
    OptionalKeys(hasSla, Entry("sla", sla));
    KeysOfShape(version, createdAt, name, d, o, table, s, hasDescription, hasOwner, hasSla);
  }

  /** What a lookup of a required key finds in a document of that shape. */
  lemma ShapeRequired(
    version: Value, createdAt: Value, name: Value, description: Value, owner: Value, table: Value, sla: Value,
    hasDescription: bool, hasOwner: bool, hasSla: bool)
    ensures var r := Shape(version, createdAt, name, description, owner, table, sla, hasDescription, hasOwner, hasSla);
      && Lookup(r, "hari_version") == Some(version)
      && Lookup(r, "created_at") == Some(createdAt)
      && Lookup(r, "name") == Some(name)
      && Lookup(r, "output_table") == Some(table)
  {
    var r := Shape(version, createdAt, name, description, owner, table, sla, hasDescription, hasOwner, hasSla);
    ShapeKeys(version, createdAt, name, description, owner, table, sla, hasDescription, hasOwner, hasSla);
    LookupDistinct(r, 0);
    LookupDistinct(r, 1);
    LookupDistinct(r, 2);
    LookupDistinct(r, 3 + (if hasDescription then 1 else 0) + (if hasOwner then 1 else 0));
  }

  /** What a lookup of an optional key finds in a document of that shape. */
  lemma ShapeOptional(
    version: Value, createdAt: Value, name: Value, description: Value, owner: Value, table: Value, sla: Value,
    hasDescription: bool, hasOwner: bool, hasSla: bool)
    ensures var r := Shape(version, createdAt, name, description, owner, table, sla, hasDescription, hasOwner, hasSla);
      && Lookup(r, "description") == (if hasDescription then Some(description) else None)
      && Lookup(r, "owner_email") == (if hasOwner then Some(owner) else None)
      && Lookup(r, "sla") == (if hasSla then Some(sla) else None)
  {
    var r := Shape(version, createdAt, name, description, owner, table, sla, hasDescription, hasOwner, hasSla);
    ShapeKeys(version, createdAt, name, description, owner, table, sla, hasDescription, hasOwner, hasSla);
    var at := 3 + (if hasDescription then 1 else 0) + (if hasOwner then 1 else 0);
    if hasDescription {
      LookupDistinct(r, 3);
    } else {
      LookupFinds(r, "description");
    }
    if hasOwner {
      LookupDistinct(r, at - 1);
    } else {
      LookupFinds(r, "owner_email");
    }
    if hasSla {
      LookupDistinct(r, at + 1);
    } else {
      LookupFinds(r, "sla");
    }
  }

  /** The document built from only the required fields has exactly the
      keys `hari_version`, `created_at`, `name`, `output_table`. */
  lemma RequiredOnly(version: string, createdAt: string, name: string, outputTable: seq<Entry>, columns: seq<Value>)
    ensures Keys(Contract(version, createdAt, name, outputTable, columns, None, None, None))
      == ["hari_version", "created_at", "name", "output_table"]
  {
  }
}
