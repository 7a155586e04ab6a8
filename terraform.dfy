/** The Terraform SDK's per-resource handle (schema.ResourceData), reduced to
    what the provider's lifecycle functions use: the resource id, the string
    attributes, the attributes the resource schema declares, the attributes the
    configuration sets (GetOk) and the attributes whose planned value differs
    from the state (HasChange). */
module Terraform {

  /** The part of a resource handle that lifecycle functions write. */
  datatype State = State(id: string, fields: map<string, string>)

  /** The attributes after d.Set(key, value): a declared attribute takes the
      value; for an attribute the schema does not declare, Set returns an
      error and writes nothing. */
  function Assigned(fields: map<string, string>, schema: set<string>, key: string, value: string)
    : (r: map<string, string>)
    ensures key in schema ==> r == fields[key := value]
    ensures key !in schema ==> r == fields
  {
    if key in schema then fields[key := value] else fields
  }

  /** The part of `m` whose keys the schema declares. */
  function Declared(m: map<string, string>, schema: set<string>): (r: map<string, string>)
    ensures r.Keys == m.Keys * schema
    ensures forall k :: k in r ==> r[k] == m[k]
  {
    map k | k in m.Keys * schema :: m[k]
  }

  /** One Set after a merge is the merge of one more attribute. */
  lemma AssignedAfterDeclared(f: map<string, string>, m: map<string, string>, schema: set<string>,
                              key: string, value: string)
    ensures Assigned(f + Declared(m, schema), schema, key, value) == f + Declared(m[key := value], schema)
  {
  }

  /** Writing attributes that are all declared writes all of them. */
  lemma DeclaredWhole(m: map<string, string>, schema: set<string>)
    requires m.Keys <= schema
    ensures Declared(m, schema) == m
  {
  }

  /** Writing attributes none of which is declared writes nothing. */
  lemma DeclaredNone(f: map<string, string>, m: map<string, string>, schema: set<string>)
    requires m.Keys !! schema
    ensures f + Declared(m, schema) == f
  {
    assert Declared(m, schema) == map[];
  }

  class ResourceData {
    var id: string
    var fields: map<string, string>
    /** Attributes the resource schema declares. */
    const schema: set<string>
    /** Attributes for which GetOk reports a value. */
    const present: set<string>
    /** Attributes for which HasChange holds. */
    const changed: set<string>

    constructor (id: string, fields: map<string, string>, schema: set<string>,
                 present: set<string>, changed: set<string>)
      ensures this.id == id && this.fields == fields && this.schema == schema
      ensures this.present == present && this.changed == changed
    {
      this.id := id;
      this.fields := fields;
      this.schema := schema;
      this.present := present;
      this.changed := changed;
    }

    function View(): State
      reads this
    {
      State(id, fields)
    }

    function Id(): string
      reads this
    {
      id
    }

    /** d.Get(key): an attribute never set reads as Go's zero string. */
    function Get(key: string): string
      reads this
    {
      if key in fields then fields[key] else ""
    }

    /** d.GetOk(key): the value and whether the configuration sets it. */
    function GetOk(key: string): (string, bool)
      reads this
    {
      (Get(key), key in present)
    }

    predicate HasChange(key: string)
    {
      key in changed
    }

    method SetId(v: string)
      modifies this
      ensures View() == State(v, old(fields))
    {
      id := v;
    }

    /** d.Set(key, value); the error it returns for an undeclared key is
        ignored by every caller, so it is not returned. */
    method Set(key: string, value: string)
      modifies this
      ensures View() == State(old(id), Assigned(old(fields), schema, key, value))
    {
      if key in schema {
        fields := fields[key := value];
      }
    }
  }
}
