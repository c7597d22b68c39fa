/** Profile configurations and store lookups, as the runtime handlers read them. */
module Profiles {
  import opened Text

  /** A JSON value of a profile's configuration. */
  datatype Value = Str(text: string) | List(items: seq<Value>) | Other

  type Config = map<string, Value>

  /** A store lookup: the value, a not-found error, or any other error. */
  datatype Lookup<+T> = Found(value: T) | Missing | Broken

  function ConfigString(c: Config, key: string): string {
    if key in c && c[key].Str? then c[key].text else ""
  }

  /** The configuration names the service, alone or in a list; a single name wins. */
  predicate MatchesService(c: Config, serviceID: string) {
    if "service_id" in c && c["service_id"].Str? then Trim(c["service_id"].text) == serviceID
    else if "service_ids" in c && c["service_ids"].List? then
      exists i | 0 <= i < |c["service_ids"].items| ::
        c["service_ids"].items[i].Str? && Trim(c["service_ids"].items[i].text) == serviceID
    else false
  }

  function FirstNonEmpty(a: string, b: string): string {
    if Trim(a) != "" then a else if Trim(b) != "" then b else ""
  }

  /** Only "standby" is not primary. */
  function NormalizeRole(role: string): string {
    if Trim(Lower(role)) == "standby" then "standby" else "primary"
  }
}
