/**
 * Which transcription model a task is submitted with (`getModel`): a partner
 * override for the task's source language wins over a language override, which
 * wins over the default model. The partner key type is a parameter: the model
 * does not assume how the vendor's partner id compares with the keys read from
 * the JSON configuration.
 */
module ModelPolicy {

  /** The three configuration entries `getModel` reads, after `getConfig` filled them in. */
  datatype Config<P> = Config(
    defaultModel: string,
    languageOverride: map<string, string>,
    partnerOverride: map<P, map<string, string>>)

  /** A partner id as a Python value: no conversion between integers and JSON's string keys is assumed. */
  datatype PartnerKey = IntKey(n: int) | StrKey(s: string)

  /** True when the partner has its own model for this language. */
  predicate HasPartnerEntry<P>(conf: Config<P>, partnerId: P, lang: string) {
    partnerId in conf.partnerOverride && lang in conf.partnerOverride[partnerId]
  }

  /**
   * The chained `.get` lookups of the source: start from the default, let the
   * language override replace it, then let the partner's own map replace that
   * (a partner without a map, or whose map lacks the language, keeps the value).
   */
  function GetModel<P>(conf: Config<P>, partnerId: P, lang: string): (model: string)
    ensures HasPartnerEntry(conf, partnerId, lang) ==>
      model == conf.partnerOverride[partnerId][lang]
    ensures !HasPartnerEntry(conf, partnerId, lang) && lang in conf.languageOverride ==>
      model == conf.languageOverride[lang]
    ensures !HasPartnerEntry(conf, partnerId, lang) && lang !in conf.languageOverride ==>
      model == conf.defaultModel
  {
    var model := conf.defaultModel;
    var model := if lang in conf.languageOverride then conf.languageOverride[lang] else model;
    var partnerMap := if partnerId in conf.partnerOverride then conf.partnerOverride[partnerId] else map[];
    if lang in partnerMap then partnerMap[lang] else model
  }

  /** The model always comes from one of the three configured levels. */
  lemma GetModelIsConfigured<P>(conf: Config<P>, partnerId: P, lang: string)
    ensures var m := GetModel(conf, partnerId, lang);
      m == conf.defaultModel || m in conf.languageOverride.Values ||
      (partnerId in conf.partnerOverride && m in conf.partnerOverride[partnerId].Values)
  {
  }

  /**
   * Overrides for other partners never matter: only the task's own partner
   * entry takes part in the choice.
   */
  lemma OtherPartnersIrrelevant<P>(conf: Config<P>, partnerId: P, lang: string, other: P, m: map<string, string>)
    requires other != partnerId
    ensures GetModel(conf.(partnerOverride := conf.partnerOverride[other := m]), partnerId, lang)
         == GetModel(conf, partnerId, lang)
  {
  }

  /**
   * Keys of a JSON object are strings: if every partner key of the configuration
   * is a string and the task's partner id is an integer, the partner level never
   * applies and the language override or the default decides.
   */
  lemma IntPartnerMissesStringKeys(conf: Config<PartnerKey>, n: int, lang: string)
    requires forall k :: k in conf.partnerOverride ==> k.StrKey?
    ensures GetModel(conf, IntKey(n), lang) ==
      if lang in conf.languageOverride then conf.languageOverride[lang] else conf.defaultModel
  {
  }
}
