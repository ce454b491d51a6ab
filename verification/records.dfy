/**
 The snapshot values an activation decision reads: the user with its email
 tokens, the matching invite (if any), the site settings, and the external
 localisation and escaping services.
 */
module Records {

  /** A value that may be absent, as the result of a lookup that can find nothing. */
  datatype Option<+T> = None | Some(value: T)

  /** One row of the user's `email_tokens` association. `expired` stands for
      everything the `active` scope decides from timestamps. */
  datatype EmailToken = EmailToken(token: string, email: string, confirmed: bool, expired: bool)

  /** The user being activated, with its tokens in the order the store returns them. */
  datatype User = User(id: int, email: string, active: bool, isNoEmail: bool, emailTokens: seq<EmailToken>)

  /** The invite found for the user's email, reduced to the three checks the policy makes. */
  datatype Invite = Invite(expired: bool, destroyed: bool, linkValid: bool)

  /** The one site setting the policy reads. */
  datatype SiteSettings = SiteSettings(mustApproveUsers: bool)

  /** Localisation (`I18n.t` with a key and interpolation arguments) and HTML
      escaping (`Rack::Utils.escape_html`): libraries outside the model, taken
      as arbitrary functions about which nothing is assumed. */
  datatype Services = Services(translate: (string, map<string, string>) -> string, escapeHtml: string -> string)
}
