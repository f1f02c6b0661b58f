/**
 * The user role. The source types it as `'sales' | 'pm' | 'dev'` but reads it
 * from strings and switches on it with a `default:` branch, so the model keeps
 * every other string as an explicit fallback case.
 */
module Roles {

  datatype Role = Sales | Pm | Dev | Unrecognised(tag: string)

  /** The strings the source recognises as roles. */
  const KnownTags: set<string> := {"sales", "pm", "dev"}

  /** The fallback case never carries one of the known tags. */
  predicate WellFormed(r: Role)
  {
    r.Unrecognised? ==> r.tag !in KnownTags
  }

  /** The string the source stores for a role. */
  function Tag(r: Role): string
  {
    match r
    case Sales => "sales"
    case Pm => "pm"
    case Dev => "dev"
    case Unrecognised(t) => t
  }

  /** The `switch (role)` dispatch: a string read as a role. */
  function RoleOf(tag: string): (r: Role)
    ensures WellFormed(r)
    ensures Tag(r) == tag
    ensures r.Unrecognised? <==> tag !in KnownTags
  {
    if tag == "sales" then Sales
    else if tag == "pm" then Pm
    else if tag == "dev" then Dev
    else Unrecognised(tag)
  }

  /** Reading back the tag of a well-formed role gives the role. */
  lemma RoleOfTag(r: Role)
    requires WellFormed(r)
    ensures RoleOf(Tag(r)) == r
  {
  }
}
