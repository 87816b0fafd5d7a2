/** The block of `backup()` that turns one entry of the connection file into
    the record `db`: defaults for the scalar fields, and the list of
    databases gathered from the singular `database` and the plural
    `databases` field, each of which may hold a string or a list. */
module Normalize {
  import opened Wrappers
  import opened JsValues

  /** The record `db`. Each field keeps the raw value its `??` chain selects. */
  datatype Target = Target(
    active: Value,
    title: Value,
    host: Value,
    user: Value,
    password: Value,
    databases: seq<Value>)

  /** The TypeErrors the block can throw. */
  datatype NormalizeError =
    | NullishConnection          // reading a property of null
    | NotIterable(field: string) // spreading null or an object that is not an array

  /** What the `typeof ... == 'string'` push adds for a field. */
  function StringPart(v: Value): seq<Value> {
    if v.Str? then [v] else []
  }

  /** What the `typeof ... == 'object'` spread push adds for a field, or the
      TypeError it throws. */
  function ListPart(v: Value, field: string): Result<seq<Value>, NormalizeError> {
    if TypeOf(v) != "object" then Ok([])
    else if v.Arr? then Ok(v.items)
    else Err(NotIterable(field))
  }

  /** The record built for one connection: the four sources of database names
      appended in the fixed order singular string, plural string, singular
      list, plural list, with nothing removed. */
  function Normalized(c: Value): Result<Target, NormalizeError> {
    if Nullish(c) then Err(NullishConnection)
    else
      var one, many := Get(c, "database"), Get(c, "databases");
      match (ListPart(one, "database"), ListPart(many, "databases"))
      case (Err(e), _) => Err(e)
      case (_, Err(e)) => Err(e)
      case (Ok(fromOne), Ok(fromMany)) =>
        Ok(Target(
          Coalesce(Get(c, "active"), Bool(true)),
          Coalesce(Get(c, "title"), Coalesce(Get(c, "host"), Str(""))),
          Coalesce(Get(c, "host"), Str("")),
          Coalesce(Get(c, "user"), Str("")),
          Coalesce(Get(c, "password"), Coalesce(Get(c, "pwd"), Str(""))),
          StringPart(one) + StringPart(many) + fromOne + fromMany))
  }

  /** The block as the script runs it: successive pushes onto `db.databases`. */
  method NormalizeConnection(connection: Value) returns (r: Result<Target, NormalizeError>)
    ensures r == Normalized(connection)
  {
    if Nullish(connection) {
      return Err(NullishConnection);
    }
    var active := Coalesce(Get(connection, "active"), Bool(true));
    var title := Coalesce(Get(connection, "title"), Coalesce(Get(connection, "host"), Str("")));
    var host := Coalesce(Get(connection, "host"), Str(""));
    var user := Coalesce(Get(connection, "user"), Str(""));
    var password := Coalesce(Get(connection, "password"), Coalesce(Get(connection, "pwd"), Str("")));

    var one, many := Get(connection, "database"), Get(connection, "databases");
    var databases: seq<Value> := [];
    if TypeOf(one) == "string" {
      databases := databases + [one];
    }
    if TypeOf(many) == "string" {
      databases := databases + [many];
    }
    if TypeOf(one) == "object" {
      if !one.Arr? {
        return Err(NotIterable("database"));
      }
      databases := databases + one.items;
    }
    if TypeOf(many) == "object" {
      if !many.Arr? {
        return Err(NotIterable("databases"));
      }
      databases := databases + many.items;
    }
    assert databases == StringPart(one) + StringPart(many)
                         + ListPart(one, "database").value + ListPart(many, "databases").value;
    r := Ok(Target(active, title, host, user, password, databases));
  }

  /** The defaults: `active` is true when absent and kept otherwise (so an
      explicit false stays false); `title` falls back to the host and then
      to ""; host and user default to ""; the password falls back to `pwd`
      and then to "". */
  lemma NormalizeDefaults(c: Value)
    requires Normalized(c).Ok?
    ensures var t := Normalized(c).value;
      && (Nullish(Get(c, "active")) ==> t.active == Bool(true) && Truthy(t.active))
      && (!Nullish(Get(c, "active")) ==> t.active == Get(c, "active"))
      && (Get(c, "active") == Bool(false) ==> t.active == Bool(false) && !Truthy(t.active))
      && (!Nullish(Get(c, "title")) ==> t.title == Get(c, "title"))
      && (Nullish(Get(c, "title")) && !Nullish(Get(c, "host")) ==> t.title == Get(c, "host"))
      && (Nullish(Get(c, "title")) && Nullish(Get(c, "host")) ==> t.title == Str(""))
      && (!Nullish(Get(c, "host")) ==> t.host == Get(c, "host"))
      && (Nullish(Get(c, "host")) ==> t.host == Str(""))
      && (!Nullish(Get(c, "user")) ==> t.user == Get(c, "user"))
      && (Nullish(Get(c, "user")) ==> t.user == Str(""))
      && (!Nullish(Get(c, "password")) ==> t.password == Get(c, "password"))
      && (Nullish(Get(c, "password")) && !Nullish(Get(c, "pwd")) ==> t.password == Get(c, "pwd"))
      && (Nullish(Get(c, "password")) && Nullish(Get(c, "pwd")) ==> t.password == Str(""))
  {
  }

  /** The block throws exactly when the connection is null, or when either
      database field is null or an object that is not an array. */
  lemma NormalizeFailsIff(c: Value)
    ensures Normalized(c).Err? <==>
      || Nullish(c)
      || Get(c, "database").Null? || Get(c, "database").Obj?
      || Get(c, "databases").Null? || Get(c, "databases").Obj?
  {
  }

  /** A name is in the list exactly when it is one of the string fields or an
      element of one of the list fields; the length is the sum of what each
      source contributes, so no duplicate is dropped. */
  lemma DatabasesSources(c: Value, x: Value)
    requires Normalized(c).Ok?
    ensures var one, many := Get(c, "database"), Get(c, "databases");
      var dbs := Normalized(c).value.databases;
      && (x in dbs <==>
           || (one.Str? && x == one) || (many.Str? && x == many)
           || (one.Arr? && x in one.items) || (many.Arr? && x in many.items))
      && |dbs| == |StringPart(one)| + |StringPart(many)|
                  + (if one.Arr? then |one.items| else 0) + (if many.Arr? then |many.items| else 0)
  {
  }

  /** A name given in both fields appears twice. */
  lemma DuplicatesKept(name: string, c: Value)
    requires c == Obj(map["database" := Str(name), "databases" := Arr([Str(name)])])
    ensures Normalized(c) == Ok(Target(Bool(true), Str(""), Str(""), Str(""), Str(""), [Str(name), Str(name)]))
  {
    var t := Normalized(c).value;
    assert t.active == Bool(true) && t.title == Str("") && t.host == Str("");
    assert t.user == Str("") && t.password == Str("");
    assert t.databases == [Str(name), Str(name)];
  }

  /** The connection `{"host":"db1","user":"u","password":"p","database":"a","databases":["b","c"]}`:
      active, titled by its host, with the databases a, b, c in that order. */
  lemma SingularBeforePlural(c: Value)
    requires c == Obj(map["host" := Str("db1"), "user" := Str("u"), "password" := Str("p"),
                          "database" := Str("a"), "databases" := Arr([Str("b"), Str("c")])])
    ensures Normalized(c) == Ok(Target(Bool(true), Str("db1"), Str("db1"), Str("u"), Str("p"),
                                       [Str("a"), Str("b"), Str("c")]))
  {
    var t := Normalized(c).value;
    assert t.active == Bool(true) && t.title == Str("db1") && t.host == Str("db1");
    assert t.user == Str("u") && t.password == Str("p");
    assert t.databases == [Str("a"), Str("b"), Str("c")];
  }

  /** Both string fields come before both list fields, whatever the field
      order in the file. */
  lemma StringsBeforeLists(a: string, b: string, xs: seq<Value>, ys: seq<Value>)
    ensures var c := Obj(map["database" := Arr(xs), "databases" := Str(b)]);
      var d := Obj(map["database" := Str(a), "databases" := Arr(ys)]);
      && Normalized(c).Ok? && Normalized(c).value.databases == [Str(b)] + xs
      && Normalized(d).Ok? && Normalized(d).value.databases == [Str(a)] + ys
  {
  }
}
