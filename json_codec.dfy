/**
 * `JSON.stringify` and `JSON.parse`, as far as the session store uses them:
 * a user is written to storage as text and read back from it.
 */
module Json {
  import opened Wrappers
  import opened Api

  /** What `JSON.parse` makes of a stored text. */
  datatype Parsed =
    | Malformed          // JSON.parse throws
    | Null               // the text `null`
    | Object(user: User) // a user object

  /** A stringify/parse pair, supplied by the environment. */
  datatype Codec = Codec(stringify: User -> string, parse: string -> Parsed)

  /**
   * What the consistency lemmas need: whatever stringify writes, parse reads
   * back as a user object.
   */
  ghost predicate ParsesToObjects(json: Codec) {
    forall u :: json.parse(json.stringify(u)).Object?
  }

  /**
   * What the round-trip needs, for the one user written: parsing the text
   * stringify wrote gives that user back, and the empty text is not JSON.
   * (Stated per user: `price` is a real, so no stringify into finite text
   * can be one-to-one on all users.)
   */
  ghost predicate RoundTrips(json: Codec, u: User) {
    json.parse(json.stringify(u)) == Object(u) && json.parse("") == Malformed
  }

  /** The text of a stringified user is never empty, hence always truthy. */
  lemma StringifiedIsNonEmpty(json: Codec, u: User)
    requires RoundTrips(json, u)
    ensures json.stringify(u) != ""
  {
  }

  /** A fixed user, to build witnesses from. */
  const SomeUser: User := User(1, "", "", "", Some(false), "", "", [])

  /** Some pair meets the consistency law: write `{}`, read any text back as one user. */
  lemma ParsesToObjectsIsSatisfiable()
    ensures exists json :: ParsesToObjects(json)
  {
    var json := Codec(_ => "{}", s => if s == "" then Malformed else Object(SomeUser));
    assert ParsesToObjects(json);
  }

  /** For every user some pair meets the round-trip law. */
  lemma RoundTripsIsSatisfiable(u: User)
    ensures exists json :: RoundTrips(json, u)
  {
    var json := Codec(_ => "{}", s => if s == "" then Malformed else Object(u));
    assert RoundTrips(json, u);
  }
}
