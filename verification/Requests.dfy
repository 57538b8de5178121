/** What the recorder is asked to record (src/recorder.py). */
module Requests {
  import opened Basics
  import opened Rates

  datatype Request = Request(
    ts: int, provider: string, model: string, userId: Option<string>, clientSource: Option<string>,
    sessionId: Option<string>, endpoint: string, tokens: Tokens, promptLength: Option<int>,
    reasoningTokens: Option<int>, toolTokens: Option<int>, totalTokens: Option<int>,
    latencyMs: Option<int>, ttftMs: Option<int>, status: Option<int>, clientIp: Option<string>)

  /** A success without a single token count is not recorded. */
  predicate Skipped(q: Request) {
    q.status == Some(200) && OrZero(q.tokens.prompt) == 0 && OrZero(q.tokens.completion) == 0 &&
    OrZero(q.tokens.cached) == 0 && OrZero(q.totalTokens) == 0
  }
}
