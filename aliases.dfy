/** Squad display aliases (`AliasService`). */
module Aliases {
  import opened Wrappers

  class AliasService {
    /** The alias table: squad name to alias. */
    const aliases: map<string, string>

    /**
     * The table read by `_load_aliases`: the parsed alias file, or `None` when the file is missing
     * or malformed, in which case the table is empty.
     */
    constructor (loaded: Option<map<string, string>>)
      ensures aliases == loaded.GetOr(map[])
    {
      aliases := loaded.GetOr(map[]);
    }

    /** `get_squad_alias`: the squad's alias, or the name itself when it has none. */
    function GetSquadAlias(squadName: string): (alias: string)
      ensures squadName in aliases ==> alias == aliases[squadName]
      ensures squadName !in aliases ==> alias == squadName
    {
      if squadName in aliases then aliases[squadName] else squadName
    }
  }

  /** With the alias file missing or malformed, every squad keeps its own name. */
  lemma DisabledIsIdentity(service: AliasService, squadName: string)
    requires service.aliases == map[]
    ensures service.GetSquadAlias(squadName) == squadName
  {
  }
}
