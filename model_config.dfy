/**
 * The model registry: the parsed `models.json` document and the lookup
 * `config['aliases'][alias]['provider' | 'model']` the chat core performs.
 */
module ModelConfig {
  import opened Wrappers

  /** One alias entry: the JSON object under `aliases[alias]`. */
  type AliasEntry = map<string, string>

  /** The JSON object under the `aliases` key. */
  type AliasTable = map<string, AliasEntry>

  /**
   * The parsed configuration document. Only its `aliases` key matters;
   * `None` stands for a document without that key.
   */
  datatype ConfigDoc = ConfigDoc(aliases: Option<AliasTable>)

  const ProviderKey: string := "provider"
  const ModelKey: string := "model"

  /** Outcome of looking an alias up. */
  datatype Resolution =
    | Resolved(provider: string, model: string)
    | ConfigFileMissing   // open() raised FileNotFoundError
    | AliasNotFound       // one of the four subscripts raised KeyError

  /** The configuration file exists and maps `alias` to provider `p` and model `m`. */
  predicate Declares(config: Option<ConfigDoc>, alias: string, p: string, m: string) {
    && config.Some?
    && config.value.aliases.Some?
    && alias in config.value.aliases.value
    && ProviderKey in config.value.aliases.value[alias]
    && ModelKey in config.value.aliases.value[alias]
    && config.value.aliases.value[alias][ProviderKey] == p
    && config.value.aliases.value[alias][ModelKey] == m
  }

  /**
   * Alias resolution. `config` is `None` when the file does not exist.
   * The pair returned is exactly the one the file declares; every way a
   * subscript can fail on an existing file is an unknown alias.
   */
  function Resolve(config: Option<ConfigDoc>, alias: string): (r: Resolution)
    ensures r.ConfigFileMissing? <==> config.None?
    ensures forall p, m :: r == Resolved(p, m) <==> Declares(config, alias, p, m)
    ensures r.AliasNotFound? <==> config.Some? && forall p, m :: !Declares(config, alias, p, m)
  {
    match config
    case None => ConfigFileMissing
    case Some(doc) =>
      match doc.aliases
      case None => AliasNotFound
      case Some(table) =>
        if alias !in table then AliasNotFound
        else
          var info := table[alias];
          if ProviderKey !in info || ModelKey !in info then AliasNotFound
          else Resolved(info[ProviderKey], info[ModelKey])
  }

  /** Resolving an alias looks at that alias's entry only. */
  lemma ResolveReadsOwnEntry(table: AliasTable, alias: string, other: string, entry: AliasEntry)
    requires other != alias
    ensures Resolve(Some(ConfigDoc(Some(table[other := entry]))), alias)
         == Resolve(Some(ConfigDoc(Some(table))), alias)
  {
    var updated := table[other := entry];
    assert alias in updated <==> alias in table;
    if alias in table {
      assert updated[alias] == table[alias];
    }
  }
}
