/** Token-account helpers of bot/src/utils/ata.utils.ts. */
module AtaUtils {
  import opened Wrappers

  /** The SPL Token program id (`TOKEN_PROGRAM_ID`). */
  const TOKEN_PROGRAM_ID: string := "TokenkegQfeZyiNwAJbNbGKPFXCWuBvf9Ss623VQ5DA"

  /** The parsed fields of a token account (`ParsedATAData`). */
  datatype ParsedAtaData = ParsedAtaData(
    mint: string,
    owner: string,
    amount: string,
    delegateOption: int,
    delegate: Option<string>,
    state: int,
    isNativeOption: int,
    isNative: Option<string>,
    delegatedAmount: string,
    closeAuthorityOption: int,
    closeAuthority: Option<string>)

  /** The account data `isATA` inspects; `owner` is absent when the data has none. */
  datatype AccountData = AccountData(owner: Option<string>)

  /**
   * `getATACloseAuthority`: the declared close authority when the option flag is 1 and
   * the authority is a non-empty string, otherwise the token owner.
   */
  function CloseAuthority(data: ParsedAtaData): (authority: string)
    ensures authority == data.owner
            || (data.closeAuthority.Some? && authority == data.closeAuthority.value)
    ensures data.closeAuthorityOption != 1 ==> authority == data.owner
    ensures data.closeAuthorityOption == 1 && data.closeAuthority.Some? && data.closeAuthority.value != ""
            ==> authority == data.closeAuthority.value
    ensures data.closeAuthorityOption == 1 && (data.closeAuthority.None? || data.closeAuthority.value == "")
            ==> authority == data.owner
  {
    if data.closeAuthorityOption == 1 && data.closeAuthority.Some? && data.closeAuthority.value != "" then
      data.closeAuthority.value
    else
      data.owner
  }

  /**
   * `isATA`: the account data is present, has an owner, and that owner is the Token
   * program. Missing data or a missing owner give a falsy answer.
   */
  function IsAta(accountData: Option<AccountData>): (ata: bool)
    ensures ata <==> accountData.Some? && accountData.value.owner == Some(TOKEN_PROGRAM_ID)
  {
    match accountData
    case None => false
    case Some(d) => d.owner.Some? && d.owner.value == TOKEN_PROGRAM_ID
  }
}
