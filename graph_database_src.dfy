/**
 * `neo4j.GraphDatabase` of the src revision: a REST URL and an optional
 * management URL, the deprecated request helpers that prefix a resource
 * with the REST URL, `stripUrlBase` (the same code as the lib revision,
 * `GraphDatabase.StripUrlBase`, with this revision's management URL) and
 * the serialised form.
 */
module GraphDatabaseSrc {
  import opened Wrappers
  import opened Strings
  import opened JsValue
  import GraphDatabase
  import OrderedMaps

  /** The two URLs the constructor stores; `manageUrl` is a string or `null`. */
  datatype Db = Db(url: string, manageUrl: Value)

  /** A management URL as the constructor leaves it. */
  predicate WellFormed(db: Db)
  {
    db.manageUrl.Null? || (db.manageUrl.Str? && db.manageUrl.s != "")
  }

  /** `new GraphDatabase(url, manageUrl)`: a missing or empty management URL becomes `null`. */
  function Create(url: string, manageUrl: Option<string>): (db: Db)
    ensures WellFormed(db) && db.url == url
    ensures manageUrl.Some? && manageUrl.value != "" ==> db.manageUrl == Str(manageUrl.value)
    ensures manageUrl.None? || manageUrl.value == "" ==> db.manageUrl == Null
  {
    var given := if manageUrl.Some? then Str(manageUrl.value) else Undefined;
    Db(url, Or(given, Null))
  }

  /** `stripUrlBase(url)` of this database. */
  function StripUrlBase(db: Db, url: Value): Result<Value, string>
    requires WellFormed(db)
  {
    GraphDatabase.StripUrlBase(db.url, db.manageUrl, url)
  }

  /** The URL `get`, `del`, `post` and `put` send their request to: the REST URL followed by the resource. */
  function RequestUrl(db: Db, resource: Value): (r: string)
    ensures db.url <= r
    ensures r[|db.url|..] == ToText(resource)
  {
    db.url + ToText(resource)
  }

  /** Stripping the base off a request URL gives back the resource it was made from. */
  lemma StripRequestUrl(db: Db, resource: string)
    requires WellFormed(db) && exists i :: At(db.url, "://", i)
    ensures StripUrlBase(db, Str(RequestUrl(db, Str(resource)))) == Success(Str(resource))
  {
    var u := RequestUrl(db, Str(resource));
    var i :| At(db.url, "://", i);
    assert u[..|db.url|] == db.url;
    assert u[i..i + 3] == db.url[i..i + 3];
    assert At(u, "://", i);
  }

  /** `toJSONString()`: exactly the two URLs. */
  function ToJson(db: Db): (v: Value)
    ensures v.Obj? && OrderedMaps.Keys(v.fields) == ["url", "manageUrl"]
    ensures Field(v, "url") == Str(db.url) && Field(v, "manageUrl") == db.manageUrl
  {
    Obj([("url", Str(db.url)), ("manageUrl", db.manageUrl)])
  }

  /** A database built again from its serialised form. */
  function FromJson(v: Value): Db
  {
    var m := Field(v, "manageUrl");
    Create(ToText(Field(v, "url")), if m.Str? then Some(m.s) else None)
  }

  /** The serialised form restores the same database. */
  lemma JsonRoundTrip(db: Db)
    requires WellFormed(db)
    ensures FromJson(ToJson(db)) == db
  {
    assert Field(ToJson(db), "url") == Str(db.url);
  }
}
