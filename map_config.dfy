/** The tile-URL template resolver. The environment value `EXPO_PUBLIC_MAP_TILE_URL`, read once
    when the program starts, is a parameter; None is an unset variable. */
module MapConfig {
  import opened Wrappers
  import Text

  /** `getTileUrlTemplate`: the trimmed configured value, or None (JavaScript `null`) when the
      value is unset or blank. */
  function TileUrlTemplate(env: Option<string>): (r: Option<string>)
    ensures r.None? <==> Text.AllWhitespace(env.GetOr(""))
    ensures r.Some? ==> && r.value == Text.Trim(env.GetOr(""))
                        && r.value != []
                        && !Text.IsWhitespace(r.value[0]) && !Text.IsWhitespace(r.value[|r.value| - 1])
  {
    var template := env.GetOr("");
    var trimmed := Text.Trim(template);
    Text.TrimEmptyIff(template);
    if trimmed == [] then None else Some(trimmed)
  }

  /** An unset variable reads as the empty string. */
  lemma UnsetIsEmpty()
    ensures TileUrlTemplate(None) == TileUrlTemplate(Some("")) == None
  {
  }

  /** Resolving a resolved template again gives it back unchanged. */
  lemma TileUrlTemplateIdempotent(env: Option<string>)
    ensures TileUrlTemplate(env).Some? ==>
              TileUrlTemplate(Some(TileUrlTemplate(env).value)) == TileUrlTemplate(env)
  {
    if TileUrlTemplate(env).Some? {
      Text.TrimIdempotent(env.GetOr(""));
    }
  }
}
