/** The values the engine works on: events, rules, sessions and continuations. */
module Core {

  datatype Option<+T> = None | Some(value: T)
  datatype Result<+T> = Ok(value: T) | Err(error: string)

  /** Instants are nanoseconds since a fixed origin. */
  type Instant = int

  datatype Event = Event(
    id: string, kind: string, source: string,
    payload: map<string, string>, timestamp: Instant)

  datatype Selector = Selector(kind: string, source: string) {
    /** An empty selector source matches every source. */
    predicate Matches(ev: Event) {
      kind == ev.kind && (source == "" || source == ev.source)
    }
  }

  const ACTION_CONTINUE_SESSION := "continue_session"

  /** A rule's label is called `tag`, since `label` is a keyword. */
  datatype Rule = Rule(
    id: string, selector: Selector, actionKind: string, sessionId: string,
    promptTemplate: string, tag: string, oneShot: bool, consumed: bool,
    expiresAt: Option<Instant>, createdAt: Instant)
  {
    predicate Active(now: Instant) {
      !consumed && (expiresAt.None? || now < expiresAt.value)
    }
  }

  /** `Unset` is the blank state a registration may carry; it is never stored. */
  datatype SessionState = Unset | Waiting | Queued | Resuming | SessionRunning | Done

  datatype Session = Session(
    sessionId: string, agent: string, repoPath: string, state: SessionState,
    createdAt: Instant, updatedAt: Instant)

  datatype ContState = Pending | Running | Completed | Failed {
    predicate Terminal() { Completed? || Failed? }
  }

  datatype Continuation = Continuation(
    id: string, ruleId: string, eventId: string, sessionId: string,
    prompt: string, tag: string, state: ContState, command: string,
    exitCode: Option<int>, outputSummary: string,
    createdAt: Instant, updatedAt: Instant)

  /** The columns no statement ever updates after the row is inserted. */
  predicate SameRow(a: Continuation, b: Continuation) {
    && a.id == b.id && a.ruleId == b.ruleId && a.eventId == b.eventId
    && a.sessionId == b.sessionId && a.prompt == b.prompt && a.tag == b.tag
    && a.createdAt == b.createdAt
  }

  /** What a finished run leaves in its row. */
  datatype Verdict = Verdict(
    state: ContState, command: string, exitCode: Option<int>, summary: string, durationMs: int)

  /** Prompt rendering is a template library call: any function of template and event may stand for it. */
  type Renderer = (string, Event) -> Result<string>

  datatype RetentionPolicy = RetentionPolicy(sessionIdle: int, continuationAge: int, eventAge: int)
}
