/** Whose request it is: the single owner of a server without sign-in, or an account. */
module Owners {
  /** An account's owner key: 52 characters, so never the text of the local owner. */
  type AccountName = s: string | |s| == 52 witness seq(52, _ => 'a')

  datatype Owner = Local | Account(name: AccountName)
}
