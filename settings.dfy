/**
 * `getConfig`: the defaults filled into the parsed configuration document.
 * Reading the file is I/O and is not modelled; a missing file is the empty
 * document. Only `default_model` is kept when present whatever its value; the two
 * override entries are replaced by an empty object when missing or falsy
 * (Python's `x or {}`).
 */
module Settings {

  /** A parsed JSON value (numbers restricted to integers). */
  datatype Json =
    | JNull
    | JBool(b: bool)
    | JNum(n: int)
    | JStr(s: string)
    | JArr(items: seq<Json>)
    | JObj(fields: map<string, Json>)

  /** Python truthiness of a parsed JSON value. */
  predicate Truthy(v: Json) {
    match v
    case JNull => false
    case JBool(b) => b
    case JNum(n) => n != 0
    case JStr(s) => s != ""
    case JArr(items) => items != []
    case JObj(fields) => fields != map[]
  }

  const DefaultModelKey: string := "default_model"
  const LanguageOverrideKey: string := "language_override"
  const PartnerOverrideKey: string := "partner_override"
  const DefaultModel: string := "whisper_large_v3"

  /** `config.get(key, {}) or {}` */
  function OrEmpty(doc: map<string, Json>, key: string): Json {
    if key in doc && Truthy(doc[key]) then doc[key] else JObj(map[])
  }

  function GetConfig(doc: map<string, Json>): (conf: map<string, Json>)
    ensures conf.Keys == doc.Keys + {DefaultModelKey, LanguageOverrideKey, PartnerOverrideKey}
    ensures DefaultModelKey in doc ==> conf[DefaultModelKey] == doc[DefaultModelKey]
    ensures DefaultModelKey !in doc ==> conf[DefaultModelKey] == JStr(DefaultModel)
    ensures forall key :: key in {LanguageOverrideKey, PartnerOverrideKey} ==>
      (key in doc && Truthy(doc[key]) ==> conf[key] == doc[key]) &&
      (key !in doc || !Truthy(doc[key]) ==> conf[key] == JObj(map[]))
    ensures forall key :: key in doc && key !in {DefaultModelKey, LanguageOverrideKey, PartnerOverrideKey} ==>
      conf[key] == doc[key]
  {
    var model := if DefaultModelKey in doc then doc[DefaultModelKey] else JStr(DefaultModel);
    doc[DefaultModelKey := model]
       [LanguageOverrideKey := OrEmpty(doc, LanguageOverrideKey)]
       [PartnerOverrideKey := OrEmpty(doc, PartnerOverrideKey)]
  }

  /** Without a configuration file the built-in defaults are used. */
  lemma MissingFileDefaults()
    ensures GetConfig(map[]) == map[
      DefaultModelKey := JStr(DefaultModel),
      LanguageOverrideKey := JObj(map[]),
      PartnerOverrideKey := JObj(map[])]
  {
  }

  /** Filling in the defaults a second time changes nothing. */
  lemma GetConfigIdempotent(doc: map<string, Json>)
    ensures GetConfig(GetConfig(doc)) == GetConfig(doc)
  {
  }
}
