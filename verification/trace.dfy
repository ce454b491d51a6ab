/**
 The observable effects of an activation, as an ordered trace of abstract
 events: binding a session, enqueueing a job, creating a token row.
 */
module Trace {
  import opened Records

  /** The jobs an activation can enqueue. `CriticalUserEmail` carries the
      payload of the confirmation mail; `WelcomeMessage` stands for
      `enqueue_welcome_message` with its message type. */
  datatype Job =
    | CriticalUserEmail(emailType: string, userId: int, emailToken: string)
    | WelcomeMessage(userId: int, messageType: string)

  datatype Effect = LogOn(userId: int) | Enqueue(job: Job) | CreateToken(token: EmailToken)

  /** The jobs of a trace, in order. */
  function Jobs(trace: seq<Effect>): (js: seq<Job>)
    ensures |js| <= |trace|
  {
    if |trace| == 0 then []
    else (if trace[0].Enqueue? then [trace[0].job] else []) + Jobs(trace[1..])
  }

  /** The tokens a trace creates, in order. */
  function CreatedTokens(trace: seq<Effect>): (ts: seq<EmailToken>)
    ensures |ts| <= |trace|
  {
    if |trace| == 0 then []
    else (if trace[0].CreateToken? then [trace[0].token] else []) + CreatedTokens(trace[1..])
  }

  /** True when the trace binds a session to some user. */
  predicate LogsOn(trace: seq<Effect>)
  {
    exists i :: 0 <= i < |trace| && trace[i].LogOn?
  }
}
