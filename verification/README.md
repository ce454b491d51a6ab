# User activation policy and strategies

A Dafny model of Discourse's `UserActivator` (`app/services/user_activator.rb`).
After a user signs up or logs in, the activator chooses one of four
strategies: no-email auto-activation, the email-confirmation flow, a hold
for administrator approval, or a silent login. It then runs the chosen
strategy's `activate` and keeps the message it returns.

Everything is modelled as pure functions over immutable snapshots:

- `Records`: the user with its email tokens, the invite found for the user's email
  (`Option<Invite>` with the `expired`, `destroyed` and `link_valid` checks),
  the `must_approve_users` setting, and the external `Services`. These are
  the translation function (`I18n.t`, called with a key and interpolation
  arguments) and the HTML-escape function (`Rack::Utils.escape_html`). Both are
  arbitrary function values, and nothing is assumed about their output.
- `Policy`: the factory's decision tree (`Select`). It comes with an order-free
  description of when each strategy applies (`Applies`).
- `Tokens`: the "reuse the first unconfirmed, active token, or create one" step.
- `Trace`: side effects as an ordered list of abstract events: `LogOn(user)`,
  `Enqueue(job)` and `CreateToken(token)`.
- `Strategies`: each strategy's `activate`. It returns an `Outcome` made of the
  message, the effect trace and the user afterwards.
- `Activator`: the orchestrator's `success_message` and `finish`.

`NoEmailActivator` includes `CurrentUser` (`user_activator.rb:91`), but its
`activate` (`user_activator.rb:93-94`) only returns its message and never calls
`log_on_user`. So the model's no-email path emits no effects and binds no
session.

## Model

| member | source | states |
|---|---|---|
| Policy.Select | app/services/user_activator.rb:31-43 | A no-email user always gets the no-email strategy. A user who is not no-email and not active gets the email strategy. An active user, when approval is required, gets login exactly when the invite is present, unexpired, not destroyed and link-valid, and otherwise gets approval. Without required approval, an active user always gets login. |
| Policy.SelectIsTheApplicableStrategy | app/services/user_activator.rb:34-42 | The policy is total and unambiguous. The strategy it picks is the only one whose condition holds. |
| Tokens.FirstReusable | app/services/user_activator.rb:59 | The result is the position of a reusable token, meaning unconfirmed and unexpired, with no reusable token before it. It is None exactly when the list has no reusable token. |
| Tokens.ReuseOrCreate | app/services/user_activator.rb:59-60 | A token is created exactly when none is reusable. When one is reusable, the first reusable token is chosen and the list is unchanged. Otherwise exactly one new reusable token is appended, addressed to the user's email and carrying the fresh value. |
| Tokens.ReuseOrCreateIsStable | app/services/user_activator.rb:59-60 | Running the token step again on its own output creates nothing and picks the same token. |
| Strategies.SuccessMessage | app/services/user_activator.rb:52-99 | Each strategy's `success_message`. Approval gives the `login.wait_approval` translation. Email gives `login.activate_email` with the HTML-escaped email as its `email` argument. Login gives `login.active`. No-email gives the `login.active` translation followed by exactly `[no email]`. |
| Strategies.ActivateApproval | app/services/user_activator.rb:47-55 | Approval emits no effects and leaves the user unchanged. It returns the `login.wait_approval` translation, which is its `success_message`. |
| Strategies.ActivateEmail | app/services/user_activator.rb:57-74 | Only the token list can change. It is unchanged when a reusable token exists, and otherwise grows by the one token the trace records as created. The exact trace is the token creation, when there is one, followed by the job enqueue, in source order. Exactly one `critical_user_email` job of type `signup` is enqueued, carrying the user id and the first reusable token of the resulting list. No session is bound. The message is `login.activate_email` with the HTML-escaped email. |
| Strategies.ActivateLogin | app/services/user_activator.rb:76-88 | The trace is the session binding followed by the `welcome_user` welcome message, in that order. The user is unchanged and the message is `login.active`. |
| Strategies.ActivateNoEmail | app/services/user_activator.rb:90-100 | There are no effects, and in particular no session binding. The message is the `login.active` translation followed by `[no email]`. |
| Strategies.Activate | app/services/user_activator.rb:47-100 | Every strategy's `activate` returns its own `success_message`. The token list grows by exactly the tokens the trace creates, at most one. Only the email strategy changes the user. A session is bound exactly for login. Exactly one job is enqueued for email and for login, and none otherwise. Approval and no-email emit nothing. |
| Activator.New | app/services/user_activator.rb:6-12 | A fresh activator holds the given user, setting and invite, and has no message yet. |
| Activator.SuccessMessageOf | app/services/user_activator.rb:21-23 | For each branch of the policy, this is that branch's message. A plain function computes it, so it can emit no effects and returns the same string on every call with the same inputs. |
| Activator.Finish | app/services/user_activator.rb:17-19 | The stored message equals what `success_message` returned before `finish`, and still returns afterwards. Only the user's tokens and the message change. No-email and approval emit nothing. Login emits LogOn and then the welcome enqueue. Email's exact trace is a token creation, only when none was reusable, followed by one signup mail carrying the chosen token. A session is bound exactly when login was chosen. |
| Activator.RepeatedEmailFinishCreatesOneToken | app/services/user_activator.rb:17-66 | Two `finish` calls on an email activation create at most one token between them. The second creates none and leaves the user unchanged. It enqueues the same confirmation mail as the first. |

## Left out

- The invite lookup `Invite.find_by(email: Email.downcase(...))`. It is a database query, so the invite found is an input value. The model assumes the store does not change between calls. The source repeats the query on every call to `factory`.
- The `unconfirmed` and `active` scopes on `email_tokens`. They are reduced to a `confirmed` and an `expired` flag per token. How expiry follows from timestamps is not visible in this file. "First" is taken as list order.
- The value of a newly created token. The store generates it at random, so it is the `freshToken` parameter. The new row is assumed to be unconfirmed and unexpired.
- The text of the `I18n.t` translations and the output of `Rack::Utils.escape_html`. Both are arbitrary functions supplied through `Services`, so nothing is claimed about the rendered text beyond the key, the arguments and the `[no email]` suffix.
- Sessions, cookies and requests, including `CurrentUser#log_on_user`. Binding a session is the abstract `LogOn(userId)` event.
- The job queue and the internals of `enqueue_welcome_message`. Both become `Enqueue` events. Delivery, asynchrony and failures of collaborators are outside the model.
- `start`, which does nothing.
