/** The built-in safe baseline configuration (app/__init__.py:45-59). */
module Defaults {
  import opened Values

  /** The packaged default log line format. */
  const DefaultFormat: string := "%(asctime)s %(levelname)s %(name)s - %(message)s"

  /** The default configuration: TLS required, empty permit list, the three
      policy actions, and INFO logging with the default format. */
  const DefaultConfig: Tree := map[
    "transport" := VMap(map["require_tls" := VBool(true)]),
    "permit_list" := VMap(map["recipients" := VList([])]),
    "policy" := VMap(map[
      "actions" := VMap(map[
        "insecure_transport" := VStr("BLOCK"),
        "contains_phi_not_permitted" := VStr("REDACT"),
        "otherwise" := VStr("ALLOW")])]),
    "logging" := VMap(map[
      "level" := VStr("INFO"),
      "format" := VStr(DefaultFormat)])]

  /** The baseline is the safe one: TLS required, nobody on the permit list,
      insecure transport blocked, and INFO logging with the default format. */
  lemma DefaultsAreSafe()
    ensures DefaultConfig["transport"].entries["require_tls"] == VBool(true)
    ensures DefaultConfig["permit_list"].entries["recipients"] == VList([])
    ensures DefaultConfig["policy"].entries["actions"].entries["insecure_transport"] == VStr("BLOCK")
    ensures DefaultConfig["policy"].entries["actions"].entries["contains_phi_not_permitted"] == VStr("REDACT")
    ensures DefaultConfig["policy"].entries["actions"].entries["otherwise"] == VStr("ALLOW")
    ensures DefaultConfig["logging"].entries["level"] == VStr("INFO")
    ensures DefaultConfig["logging"].entries["format"] == VStr(DefaultFormat)
  {
  }
}
