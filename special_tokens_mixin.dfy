/**
 * The special-token accessors a tokenizer exposes: for each of the roles
 * cls, bos, eos, unk, sep and pad, the token's text (`X_token`) and its
 * vocabulary id (`X_token_id`), both read from the same resolved descriptor
 * entry and `None` when the role resolves to nothing. There is no mask
 * accessor.
 */
module SpecialTokensMixin {
  import opened PyValues
  import opened SpiModel

  /** The roles the accessors cover. */
  const MixinRoles: set<Role> := {Cls, Bos, Eos, Unk, Sep, Pad}

  /** `token[key] if token is not None else None`, for a resolved token. */
  function Project(token: Result<Json>, key: string): (r: Result<Json>)
    ensures token == Ok(JNull) ==> r == Ok(JNull)
    ensures token.Err? ==> r == token
    ensures token.Ok? && token.value != JNull ==> r == Subscript(token.value, key)
  {
    match token
    case Err(e) => Err(e)
    case Ok(JNull) => Ok(JNull)
    case Ok(t) => Subscript(t, key)
  }

  /**
   * `X_token_id`: the `id` of the entry the role resolves to, `None` when it
   * resolves to nothing, and the lookup's error when the lookup raises.
   */
  function TokenId(config: TokenizerConfig, role: Role): (r: Result<Json>)
    requires role in MixinRoles
    ensures ResolveRole(config, role) == Ok(JNull) ==> r == Ok(JNull)
    ensures ResolveRole(config, role).Err? ==> r == ResolveRole(config, role)
    ensures ResolveRole(config, role).Ok? && ResolveRole(config, role).value != JNull ==>
              r == Subscript(ResolveRole(config, role).value, "id")
  {
    Project(ResolveRole(config, role), "id")
  }

  /**
   * `X_token`: the `content` of the entry the role resolves to, `None` when
   * it resolves to nothing, and the lookup's error when the lookup raises.
   */
  function TokenContent(config: TokenizerConfig, role: Role): (r: Result<Json>)
    requires role in MixinRoles
    ensures ResolveRole(config, role) == Ok(JNull) ==> r == Ok(JNull)
    ensures ResolveRole(config, role).Err? ==> r == ResolveRole(config, role)
    ensures ResolveRole(config, role).Ok? && ResolveRole(config, role).value != JNull ==>
              r == Subscript(ResolveRole(config, role).value, "content")
  {
    Project(ResolveRole(config, role), "content")
  }

  /** `pad_token_type_id`: always 0, whatever the descriptor holds. */
  function PadTokenTypeId(config: TokenizerConfig): (r: int)
    ensures r == 0
  {
    0
  }

  /**
   * The id and the content come from one entry: a role that resolves to
   * nothing gives `None` for both, and a role that resolves to an entry with
   * an `id` and a `content` gives exactly those two values.
   */
  lemma IdAndContentAgree(config: TokenizerConfig, role: Role)
    requires role in MixinRoles
    ensures ResolveRole(config, role) == Ok(JNull) ==>
              TokenId(config, role) == Ok(JNull) && TokenContent(config, role) == Ok(JNull)
    ensures ResolveRole(config, role).Ok? && ResolveRole(config, role).value.JObject? ==>
              var fields := ResolveRole(config, role).value.fields;
              "id" in fields && "content" in fields ==>
                TokenId(config, role) == Ok(fields["id"]) && TokenContent(config, role) == Ok(fields["content"])
  {
  }

  /**
   * A role found among `added_tokens` (its key is not in the descriptor) has
   * one of the role's aliases as its text, and its id is read from that
   * matching entry; no other text can come out of the scan.
   */
  lemma AddedTokenContent(config: TokenizerConfig, role: Role)
    requires role in MixinRoles
    requires role.KeyName() !in config.data && "added_tokens" in config.data
    requires config.data["added_tokens"].JArray?
    ensures TokenContent(config, role).Ok? && TokenContent(config, role).value != JNull ==>
              TokenContent(config, role).value.JString? && TokenContent(config, role).value.s in role.Aliases()
    ensures TokenId(config, role).Ok? && TokenId(config, role).value != JNull ==>
              exists e :: e in config.data["added_tokens"].items && Matches(e, role.Aliases())
                          && "id" in e.fields && TokenId(config, role).value == e.fields["id"]
  {
    AddedTokenRole(config, role);
  }
}
