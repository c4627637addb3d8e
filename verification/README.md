# Verification of the CCU MCP server's stateful core

A Dafny model of the parts of the server that keep state across suspension
points, with proofs of what their comments promise.

| File | Models | Proves |
|---|---|---|
| `SessionProtocol.dfy`, `SessionManager.dfy`, `SessionSafety.dfy`, `SessionShutdown.dfy`, `SessionOutcomes.dfy`, `SessionLogins.dfy` | `src/ccu/session.ts` | one login at a time, no leaked session, one renewal chain, no doomed retry, what `logout()` and `destroy()` leave behind, and how every call, login and logout ends, over every interleaving |
| `AuthTokens.dfy`, `Rotation.dfy`, `ResolvedTokens.dfy`, `RotationRuns.dfy` | `src/auth/token.ts` | what one resolve accepts, saves and announces; the overlap promises of token rotation with the exact inequalities under which they hold, over every run of restarts and ticks |
| `EnvFile.dfy`, `TokenLines.dfy`, `TokenFile.dfy` | `parsePersisted`, `serialize`, `persist` of the same file | which lines are kept and what each key reads as; when a written state reads back, what rewrites do to the operator's lines, and that the text says what the rotation runs take the file to be |
| `RateLimiter.dfy`, `RateAdmission.dfy` | `src/middleware/rate-limiter.ts` | window bound, arrival order, conservation, progress, and exactly when a request is granted, queued or turned away |
| `SysVarCache.dfy`, `SysVarChanges.dfy` | the system-variable type cache of `src/tools/control.ts` | agreement with the CCU while nothing is pending, no stale snapshot, a deleted variable stays gone |
| `TclList.dfy`, `WarmPool.dfy` | `src/cache/device-type-cache.ts` | the tokenizer inverts TCL list printing; the warm-up claims every type once with bounded concurrency |
| `Escape.dfy` | `src/utils.ts`, `src/tools/read.ts` | printed strings read back, script code cannot be changed by a value, the address filter is exact |
| `Retry.dfy`, `RetryRuns.dfy` | `src/middleware/retry.ts`, the write tools of `src/tools/control.ts`, `src/middleware/resolver.ts` | when a write in doubt can be repeated, and how often; what is retried and what is returned |
| `Poller.dfy` | `src/resources/poller.ts` | change reports and back-off as functions of the history, and that `stop()` is final |

`Wrappers.dfy` holds the shared `Option` type and induction along a run.

## How the model is built

A class of the source is a Dafny class with the same fields. Its methods are the
code between two suspension points (`await`, a timer callback, a promise
continuation). Each method is proved to make exactly the transition of a function
on values (`View() == F(old(View()))`), and the theorems are lemmas about every
run of these transitions: a run is a sequence of states in which every step is an
enabled event. The CCU, the file system, the clock and the order of events are
free; what an event carries is what they chose.

- **Event loop of the session.** `turn` counts macrotasks. A reply is delivered
  only in a later turn than its request, and a turn ends only when no promise
  continuation is ready. Single continuations of one turn may run in any order.
- **Times** are whole milliseconds (`int`) for tokens and caches, `real` for the
  token bucket. Clocks never run backwards.
- **Hashes** are injective: an accepted entry is identified by its token, polled
  data by itself. Minted tokens and issued session ids are new values chosen by
  the environment.

## Where the code needs a condition its comments do not state

- `persist` splits the token file at `\r?\n`, while `parsePersisted` reads it with
  a multi-line regular expression, for which CR, U+2028 and U+2029 end a line too.
  So an operator line can hide an assignment that survives every rewrite and is
  read (`EnvFile.HiddenAssignmentIsRead`), and each rewrite takes one CR from the
  end of an operator line (`EnvFile.OperatorLinesSurvive`, `EnvFile.CrLineShrinks`).
- "A token is never cut off before issued+ttl" and "the outgoing token stays valid
  through its grace" need inequalities, because there is one `previous` slot:
  `2 * interval < ttl`, and for the second also `grace + interval < ttl`. Both are
  proved to be exact (`RotationRuns.IssuedPromiseExactly`,
  `RotationRuns.OutgoingPromiseExactly`).
- `destroy()` does not wait for a login in flight, which may still take a session
  and arm the renewal timer (`SessionShutdown.DestroyAloneIsNotFinal`). It is final
  exactly when no login is then logging in, renewing a stored session, or on its way
  to a session file that holds one (`SessionShutdown.DestroyIsFinalExactly`).
  `src/index.ts` runs `logout()` first, which is final
  (`SessionSafety.LogoutIsFinal`).
- After AUTH a call sends a second request, so one limiter token pays for up to two
  (`Retry.TwoRequestsPerToken`); tokens are per invocation.
- A poller must be started only while no timer is active and no poll is under way
  (`Poller.StartKeepsChainExactly`); otherwise `stop()` is not final
  (`Poller.BadStartLeaks`). The server starts each poller once.
- From a rotation's save to its swap the new token is in the file and refused
  (`RotationRuns.SwapWindowExactly`).
- A TCL list reads back only if labels that need braces have balanced ones
  (`TclList.PrintedListReadsBack`).

## Model

| member | source | states |
|---|---|---|
| `SessionManager.SessionManager.constructor` | `src/ccu/session.ts:29-37` | a new manager is open, without session, timer or login, over any session file |
| `SessionManager.SessionManager.StopRenewal` | `src/ccu/session.ts:343-348` | the active timer is disarmed and forgotten, nothing else changes |
| `SessionManager.SessionManager.ScheduleRenewal` | `src/ccu/session.ts:310-326` | a new timer is armed and becomes the active one |
| `SessionManager.SessionManager.StartRenewal` | `src/ccu/session.ts:301-304` | the new timer replaces the active one |
| `SessionManager.SessionManager.DoLogin` | `src/ccu/session.ts:52-76` | a closed manager refuses; otherwise the held session is renewed or the file is read |
| `SessionManager.SessionManager.Login` | `src/ccu/session.ts:44-50` | a login in flight is joined, otherwise one is started |
| `SessionManager.SessionManager.AttemptLogin` | `src/ccu/session.ts:80-96` | each round of the retry loop checks `closed` again before it sends |
| `SessionManager.SessionManager.Hold` | `src/ccu/session.ts:98-100` | an accepted session is stored and its renewal started |
| `SessionManager.SessionManager.ContinueLogin` | `src/ccu/session.ts:66-126` | what `doLogin` does with each answer, over renew, restore, login, back-off and saving |
| `SessionManager.SessionManager.SettleLogin` | `src/ccu/session.ts:46-48` | the settled login is forgotten and its waiters become ready |
| `SessionManager.SessionManager.StartCall` | `src/ccu/session.ts:163-172` | without session log in first, else send with the held id |
| `SessionManager.SessionManager.ContinueCall` | `src/ccu/session.ts:171-185` | an answer ends the call answered, AUTH on the first request leads to a login, every other error ends it failed |
| `SessionManager.SessionManager.ResumeCall` | `src/ccu/session.ts:185-200` | the same id means a privilege error, another one a second request |
| `SessionManager.SessionManager.RenewOnce` | `src/ccu/session.ts:311-331` | a fired timer renews the held session, if there is one |
| `SessionManager.SessionManager.ContinueRenewal` | `src/ccu/session.ts:330-340` | a failed renewal logs in again |
| `SessionManager.SessionManager.FinishRenewal` | `src/ccu/session.ts:312-322` | re-arm only while open and only if this timer is still the active one |
| `SessionManager.SessionManager.EndSession` | `src/ccu/session.ts:139-148` | a held session is logged out at the CCU, otherwise `logout` returns |
| `SessionManager.SessionManager.Logout` | `src/ccu/session.ts:128-138` | close, stop the timer, and wait for a login in flight |
| `SessionManager.SessionManager.Destroy` | `src/ccu/session.ts:350-353` | close and stop the timer |
| `SessionManager.SessionManager.Deliver` | `src/ccu/session.ts:44-353` | any enabled event takes the manager through exactly one transition of the protocol |
| `SessionManager.RunManager` | `src/ccu/session.ts:44-353` | what a manager goes through when events are delivered to it is a run of the protocol and keeps the invariant |
| `SessionSafety.StepInv` | `src/ccu/session.ts:44-353` | every step keeps what login, calls, callbacks and logouts rely on across their suspensions |
| `SessionSafety.OneLoginAtATime` | `src/ccu/session.ts:39-50` | at most one `doLogin` runs, and its retry loop never goes past the fourth attempt |
| `SessionSafety.StepKeepsSession` | `src/ccu/session.ts:66-73` | a step gives up a held id only if the CCU refused to renew it or its logout was attempted |
| `SessionSafety.NoSessionLeaked` | `src/ccu/session.ts:61-73` | in every run, between a state holding an id and one that does not lies such a refusal or logout of that id |
| `SessionSafety.LogoutIsFinal` | `src/ccu/session.ts:128-149` | once a `logout()` returned no later state has a session or an armed timer, and the session file is not written any more |
| `SessionSafety.OneRenewalChain` | `src/ccu/session.ts:306-326` | only the active timer can be armed; while open and logged in it is armed, or its callback runs and will re-arm, through re-logins too |
| `SessionSafety.NoDoomedRetry` | `src/ccu/session.ts:174-200` | a call sends at most two requests, the second never with the id of the first |
| `SessionSafety.VouchedWasVouched` | `src/ccu/session.ts:68-69` | a recorded acceptance goes back to a step in which the CCU renewed or issued that id in that login |
| `SessionSafety.DeniedOnlyWhenVouched` | `src/ccu/session.ts:175-197` | a privilege error is reported only for the one id used, when the awaited login ended holding it after the CCU renewed or issued it in that login |
| `SessionOutcomes.CallEndsExactly` | `src/ccu/session.ts:163-204` | in every run a call has ended answered if and only if the CCU answered it; failed if and only if it got an error that is not AUTH, or AUTH on its second request; rejected with the login it awaited; without session after that login; or denied |
| `SessionOutcomes.CallSendsOrWaits` | `src/ccu/session.ts:166-200` | in every run a call sends exactly when it starts with a held session or resumes after a login that ended well with one that it did not use before, always the held id; and otherwise waits for a login in flight |
| `SessionOutcomes.SecondRequestAfterAuth` | `src/ccu/session.ts:184-200` | AUTH on the first request and a login that ended well with another id held lead to a second request with that id |
| `SessionLogins.LoginFailsExactly` | `src/ccu/session.ts:52-126` | in every run a login has failed if and only if the CCU turned it away (an error, or "too many sessions" for the fourth time), or the manager was closed when it began or wanted to send `Session.login` |
| `SessionLogins.OpenLoginStarts` | `src/ccu/session.ts:66-76` | a login of an open manager begins with renewing the held id, or with the session file if there is none |
| `SessionLogins.OpenLoginGoesOn` | `src/ccu/session.ts:66-126` | where each answer takes a login of an open manager: a refused id to the next way in, "too many sessions" to a back-off and another attempt, and what the CCU grants is held and saved |
| `SessionLogins.VouchedIsHeld` | `src/ccu/session.ts:92-100` | an id that the CCU renews for a login or issues to it is the one held right after |
| `SessionLogins.AttemptsAreCounted` | `src/ccu/session.ts:80-109` | the attempt number is the number of times the CCU answered that login with "too many sessions", at most three |
| `SessionLogins.FiredTimerRenews` | `src/ccu/session.ts:310-341` | a fired timer renews the held id; a renewal that fails waits for a login in flight |
| `SessionLogins.LogoutRemovesFile` | `src/ccu/session.ts:146-149` | a logout that removed the session file leaves none, in every later state |
| `SessionLogins.LogoutReturnsExactly` | `src/ccu/session.ts:128-149` | in every run a logout has returned if and only if it found no session once no login was in flight, or its attempt to remove the file has ended |
| `SessionLogins.LogoutAsksCcu` | `src/ccu/session.ts:135-147` | a logout waits for the login in flight, then asks the CCU to end the held session, and after the answer no session is held and the file comes next |
| `SessionShutdown.QuietDestroyIsFinal` | `src/ccu/session.ts:350-353` | in every run, once closed with no armed timer and no login that can be given a session, none is taken and no timer armed |
| `SessionShutdown.ClosedForGoodExactly` | `src/ccu/session.ts:80-101` | a closed manager without armed timer takes no session and arms nothing in any continuation if and only if no login in flight is logging in, renewing a stored session, or on its way to a session file that holds one |
| `SessionShutdown.DestroyIsFinalExactly` | `src/ccu/session.ts:350-353` | `destroy()` in any state that a run reaches is final if and only if that holds of the logins in flight at the call |
| `SessionShutdown.RevivedExactly` | `src/ccu/session.ts:131-134` | the single steps that give a closed, empty manager a session or timer |
| `SessionShutdown.DestroyAloneIsNotFinal` | `src/ccu/session.ts:350-353` | a run from a new manager in which `destroy()` is overtaken by the login in flight |
| `AuthTokens.AuthTokens.ReplaceWith` | `src/auth/token.ts:40-49` | the new set plus the graced entries still live and not redefined |
| `AuthTokens.AuthTokens.AdoptWithGrace` | `src/auth/token.ts:59-70` | the new set plus the live entries it does not define, under their grace |
| `AuthTokens.AuthTokens.Verify` | `src/auth/token.ts:77-90` | true if and only if the token is not empty and some live entry has its hash |
| `AuthTokens.ReplacedExactly` | `src/auth/token.ts:40-49` | which entries a `replaceWith` leaves, both directions |
| `AuthTokens.AdoptedExactly` | `src/auth/token.ts:59-70` | which entries an `adoptWithGrace` leaves and with which expiry, both directions |
| `AuthTokens.SwapsKeepDistinct` | `src/auth/token.ts:56-58` | over any sequence of swaps hashes stay pairwise distinct |
| `AuthTokens.SwapsNeverExtend` | `src/auth/token.ts:64-68` | no sequence of swaps makes a token it does not define accepted at a moment when it was not before |
| `AuthTokens.GraceLasts` | `src/auth/token.ts:35-38` | a graced entry keeps its expiry through any later swaps that do not redefine it, and is there until then |
| `AuthTokens.GraceIsKept` | `src/auth/token.ts:35-38` | a token live at adoption gets such an entry and keeps it through all later swaps |
| `AuthTokens.GraceIsExact` | `src/auth/token.ts:51-70` | it is accepted exactly until the earlier of its own expiry and adoption plus grace |
| `Rotation.TokenStore.ResolveAuthTokens` | `src/auth/token.ts:228-337` | new file, accepted entries and announcement of a resolve, over env tokens, minting, stamping, rotating, pruning and failed saves |
| `Rotation.TokenStore.Persist` | `src/auth/token.ts:159-183` | the four fields are replaced if the save succeeds, else left alone; `EnvFile.DataDir.Persist` has the text |
| `ResolvedTokens.OperatorTokensExactly` | `src/auth/token.ts:235-244` | with an operator token exactly that one and the operator's previous one are accepted, at every moment; the file is not touched and nothing is announced |
| `ResolvedTokens.FileTokensExactly` | `src/auth/token.ts:246-336` | which tokens a resolve without operator token accepts from now on, for every file, ttl, grace, lookahead and outcome of the save: the fresh one, the replaced one for its overlap, the file's own for the rest of its ttl, the outgoing one until its recorded expiry, and no other |
| `ResolvedTokens.NoTtlNoEnd` | `src/auth/token.ts:264-325` | without a ttl the token in the file is accepted at every moment and stays there |
| `ResolvedTokens.AnnouncedExactly` | `src/auth/token.ts:315-320` | a token is announced if and only if it is a fresh one that takes effect and was saved or may be announced unsaved |
| `ResolvedTokens.SavedExactly` | `src/auth/token.ts:255-305` | what the file says after a save of its own and of the outgoing token, and that a failed save leaves it |
| `ResolvedTokens.RestartAcceptsSame` | `src/auth/token.ts:228-337` | a restart on what was saved, before the token is due, changes no answer |
| `RotationRuns.AutoRotation.Tick` | `src/auth/token.ts:365-394` | a tick swaps or adopts what ends up persisted, and leaves the set alone otherwise |
| `RotationRuns.IssuedTokenAccepted` | `src/auth/token.ts:272-287` | if twice the interval is less than the ttl, every issued token is accepted through issued plus ttl in every run |
| `RotationRuns.IssuedPromiseExactly` | `src/auth/token.ts:273-282` | that promise holds for every run if and only if twice the interval is less than the ttl |
| `RotationRuns.OutgoingTokenAccepted` | `src/auth/token.ts:277-282` | if also grace plus interval is less than the ttl, every rotated-out token is accepted through its recorded expiry |
| `RotationRuns.OutgoingPromiseExactly` | `src/auth/token.ts:277-282` | that promise holds for every run if and only if both inequalities hold |
| `RotationRuns.EvictingRun` | `src/auth/token.ts:272-287` | for all parameters, a run with two rotations as early as allowed, after which the first token is gone; it breaks the promises whenever an inequality fails |
| `RotationRuns.NoGapAfterTick` | `src/auth/token.ts:344-347` | after a tick with a successful save, the token in the file is accepted for one interval |
| `RotationRuns.NoGapBetweenTicks` | `src/auth/token.ts:344-347` | with timely ticks, successful saves and interval at most ttl, the token in the file is accepted from the swap of one tick until the next tick resolves |
| `RotationRuns.SwapWindowExactly` | `src/auth/token.ts:301-384` | between a tick's save and its swap the token that the file named before is accepted through its ttl, and the one it names now exactly if the tick did not replace it |
| `RotationRuns.NoGapUntilSwap` | `src/auth/token.ts:376-384` | with timely ticks and saves the token the file named before is accepted up to the swap, if that comes within one interval of the tick before |
| `RotationRuns.PruningIsInvisible` | `src/auth/token.ts:290-299` | pruning changes no answer at or after the moment it runs |
| `RotationRuns.FailedRotationIsInvisible` | `src/auth/token.ts:301-317` | in every run a rotation whose save fails is not announced, leaves the file, and changes no answer of `verify` |
| `RotationRuns.AnnouncesExactly` | `src/auth/token.ts:315-382` | in every run a tick announces a token if and only if it has put it into the file; a start also announces one it could not save |
| `RotationRuns.UnsavedTokenAccepted` | `src/auth/token.ts:367-390` | a startup token that could not be saved is accepted through its ttl, and once persistence recovered exactly until the earlier of ttl and grace |
| `EnvFile.DataDir.Persist` | `src/auth/token.ts:159-183` | a save writes the state before the kept lines and keeps each operator line once, less one CR; an unreadable file loses them all; a failed save changes nothing |
| `EnvFile.PersistedReadsBack` | `src/auth/token.ts:125-153` | a written state reads back if and only if no operator line hides a key the state leaves out, no expiry stands without an outgoing token, and that token is not empty |
| `EnvFile.PlainLinesShadowNothing` | `src/auth/token.ts:127-128` | lines without lone CR, U+2028 or U+2029 hide nothing |
| `EnvFile.HiddenAssignmentIsRead` | `src/auth/token.ts:127-128` | a family of operator lines that survive the rewriting and are read as the outgoing token |
| `EnvFile.OperatorLinesSurvive` | `src/auth/token.ts:163-173` | a rewrite keeps every non-blank operator line once, in order, less one CR at its end; untouched if and only if none ends in CR |
| `EnvFile.CrLineShrinks` | `src/auth/token.ts:163-173` | every line closed by CR CR LF is kept with one CR, which the next rewrite takes |
| `EnvFile.RewritesKeepLines` | `src/auth/token.ts:155-173` | any number of rewrites keeps every operator line once and in order, less one trailing CR per rewrite while it has one |
| `EnvFile.DecimalIsFaithful` | `src/auth/token.ts:129-133` | decimal printing and reading of integers meets what the round trip asks of numbers |
| `TokenLines.LineKept` | `src/auth/token.ts:157-172` | a rewrite keeps a line if and only if it is not blank and begins with none of the four assignments, less a CR at its end, whatever the lines after it |
| `TokenLines.LastLineKept` | `src/auth/token.ts:157-172` | the same for a last line without newline, which keeps its CR |
| `TokenLines.LineRead` | `src/auth/token.ts:125-134` | the first line that assigns something to a key decides what it reads as, without the white space around it |
| `TokenLines.LastLineRead` | `src/auth/token.ts:125-134` | the same for a last line, and a text without such a line gives the key no value |
| `TokenFile.ReadStores` | `src/auth/token.ts:125-130` | whatever is read from a text is empty or can be written and read back |
| `TokenFile.ResolvedReadsBack` | `src/auth/token.ts:246-317` | over plain operator lines, the text after any resolve reads as the file that the resolve leaves, with the operator's lines as before |
| `TokenFile.TextIsTheFile` | `src/auth/token.ts:246-394` | over plain operator lines, the text reads as the file of the run after every event of every run, and the operator's lines never change |
| `RateLimiter.RateLimiter.constructor` | `src/middleware/rate-limiter.ts:13-26` | a full bucket, an empty queue, no timer |
| `RateLimiter.RateLimiter.EnsureRefillTimer` | `src/middleware/rate-limiter.ts:28-39` | a timer is armed if anyone waits |
| `RateLimiter.RateLimiter.WakeWaiters` | `src/middleware/rate-limiter.ts:48-53` | as many waiters as there are whole tokens, oldest first |
| `RateLimiter.RateLimiter.RefillNow` | `src/middleware/rate-limiter.ts:41-54` | the bucket fills for the elapsed time up to its cap, then waiters are woken |
| `RateLimiter.LimitsAreLegal` | `src/middleware/rate-limiter.ts:41-46` | tokens earned at a rate per second add up over time, which is all the proofs use |
| `RateLimiter.RateLimiter.AdmitNow` | `src/middleware/rate-limiter.ts:71-93` | after the refill a request is granted, queued or rejected |
| `RateLimiter.RateLimiter.AcquireNow` | `src/middleware/rate-limiter.ts:56-93` | a destroyed limiter rejects; otherwise refill, then grant, queue or reject |
| `RateLimiter.RateLimiter.TimerTick` | `src/middleware/rate-limiter.ts:30-36` | a refill that stops the timer once the queue is empty |
| `RateLimiter.RateLimiter.DestroyNow` | `src/middleware/rate-limiter.ts:95-114` | every waiting request is rejected and the timer stopped |
| `RateLimiter.RateLimiter.Deliver` | `src/middleware/rate-limiter.ts:28-114` | any enabled event makes exactly one transition |
| `RateLimiter.StepInv` | `src/middleware/rate-limiter.ts:41-114` | every step keeps bounds, order, conservation and the budget of past grants |
| `RateLimiter.WindowBound` | `src/middleware/rate-limiter.ts:41-93` | in any window at most maxTokens plus refillRate times its length acquires are granted, and tokens stay in range |
| `RateLimiter.ServedInOrder` | `src/middleware/rate-limiter.ts:48-93` | arrival order, exactly one outcome per request, bounded queue, and never a waiting request without a timer |
| `RateLimiter.OutcomesAreFinal` | `src/middleware/rate-limiter.ts:41-114` | a grant or rejection is never taken back |
| `RateLimiter.WaiterMovesUp` | `src/middleware/rate-limiter.ts:41-54` | as long as no refill overflows the bucket, a waiter moves up by one per token accrued, or is granted |
| `RateLimiter.WaiterIsGranted` | `src/middleware/rate-limiter.ts:41-54` | with refills close enough together, the waiter at position k is granted by the first refill (k+1)/refillRate seconds later |
| `RateAdmission.RequestIsAnswered` | `src/middleware/rate-limiter.ts:56-93` | in every run: after serving the waiters there are tokens for, a request is granted at once if and only if a whole token is left, turned away if and only if none is left and the queue is full, and else queued last |
| `RateAdmission.RequestPays` | `src/middleware/rate-limiter.ts:41-74` | the tokens in hand are what was left plus what accrued, up to the cap, less one for each grant of the step |
| `RateAdmission.TokenInHandIsGranted` | `src/middleware/rate-limiter.ts:69-74` | with nobody waiting and a whole token in hand a request is granted in that step |
| `RateAdmission.BurstIsGranted` | `src/middleware/rate-limiter.ts:13-26` | a new limiter grants as many requests at one moment as whole tokens fit its bucket |
| `RateAdmission.TickServes` | `src/middleware/rate-limiter.ts:28-54` | a tick serves the waiters there are tokens for, and the timer stays armed if and only if some still wait |
| `RateAdmission.ShutdownRejectsWaiters` | `src/middleware/rate-limiter.ts:95-114` | a shutdown turns away exactly those who wait |
| `RateAdmission.NothingAfterShutdown` | `src/middleware/rate-limiter.ts:56-68` | after it nothing is granted or queued, and every request is turned away |
| `SysVarCache.SysVarTools.Invalidate` | `src/tools/control.ts:653-654` | the entry is dropped and the generation bumped |
| `SysVarCache.SysVarTools.BeginSet` | `src/tools/control.ts:213-219` | a live entry with the name is used, otherwise a fetch starts and remembers the generation |
| `SysVarCache.SysVarTools.FinishSet` | `src/tools/control.ts:227-235` | the snapshot is cached only in the same generation, and serves this call in any case |
| `SysVarCache.SysVarTools.FinishCreate` | `src/tools/control.ts:626-663` | no output fails without invalidating, another name starts a clean-up, the requested name invalidates |
| `SysVarCache.SysVarTools.FinishCleanup` | `src/tools/control.ts:645-661` | the create and delete pair invalidates |
| `SysVarCache.SysVarTools.FinishDelete` | `src/tools/control.ts:726-737` | only a confirmed delete invalidates |
| `SysVarCache.StepInv` | `src/tools/control.ts:213-235` | every step keeps cached lists and open snapshots sound |
| `SysVarCache.CacheAgreesWithCcu` | `src/tools/control.ts:213-235` | in every run a cached list is the CCU's own, name by name, except under a change not yet followed by an invalidation |
| `SysVarCache.CachedTypeIsCurrent` | `src/tools/control.ts:212-217` | a set served from the cache uses the type the CCU has at that moment |
| `SysVarCache.ServedListIsRecent` | `src/tools/control.ts:215-235` | whatever is pending, a type served from the cache comes from a list that was the CCU's own at a moment asked for at most the 30 s ttl plus the duration of that fetch before |
| `SysVarCache.GenGrows` | `src/ccu/target-registry.ts:14-19` | the generation grows with every invalidation and never falls |
| `SysVarCache.NoStaleInstall` | `src/tools/control.ts:228-233` | a list whose fetch began before an invalidation is not installed after it |
| `SysVarChanges.ConfirmedChangeInvalidates` | `src/tools/control.ts:626-737` | in every run a confirmed delete, a create that echoed its name and an ended clean-up, and nothing else, drop the cached list, bump the generation and end what was pending |
| `SysVarChanges.AnotherNameIsRemoved` | `src/tools/control.ts:626-645` | a create is followed by a removal exactly if the CCU stored the variable under another name |
| `SysVarChanges.PendingExactly` | `src/tools/control.ts:653-737` | a name is pending for a handler if and only if the handler changed it on the CCU and has had no confirmation since |
| `SysVarChanges.DeletedStaysGone` | `src/tools/control.ts:736` | once the delete of a variable is confirmed no set is served its type from the cache, in every later state, unless somebody creates it again |
| `SysVarChanges.FetchAnswered` | `src/tools/control.ts:218-235` | the CCU answers a fetch with its variables of that moment; a failed fetch gives the set nothing and leaves the cached list |
| `SysVarChanges.FetchedTypeIsUsed` | `src/tools/control.ts:218-235` | a set that had to fetch uses the type the CCU had for its variable when it evaluated the request, and the list is cached if and only if nothing was invalidated meanwhile |
| `SysVarChanges.FreshListIsServed` | `src/tools/control.ts:213-219` | within 30 s of an installed list, with no confirmed change or other list since, a set of a variable on it is served from it, and any other asks the CCU |
| `TclList.ParseBraced` | `src/cache/device-type-cache.ts:32-42` | one braced item at any nesting depth, and where the rest begins |
| `TclList.ParseBare` | `src/cache/device-type-cache.ts:43-48` | one bare item, and where the rest begins |
| `TclList.SkipSpaces` | `src/cache/device-type-cache.ts:30` | spaces between items are skipped without changing what follows |
| `TclList.ParseItem` | `src/cache/device-type-cache.ts:32-48` | one item, braced or bare, and where the rest begins |
| `TclList.ParseTclList` | `src/cache/device-type-cache.ts:26-51` | the loops end on every string and yield its items |
| `TclList.WrappedLabel` | `src/cache/device-type-cache.ts:32-42` | a label in braces reads back, whatever follows, if and only if its braces balance |
| `TclList.BareLabel` | `src/cache/device-type-cache.ts:43-48` | a label that needs no braces reads back |
| `TclList.PrintedListReadsBack` | `src/cache/device-type-cache.ts:20-51` | a printed list reads back if and only if every label that needs braces has balanced ones |
| `TclList.SpacesAreSkipped` | `src/cache/device-type-cache.ts:30` | any number of spaces before an item is skipped |
| `TclList.UnclosedTakesRest` | `src/cache/device-type-cache.ts:32-42` | an item whose brace is never closed takes the rest of the input |
| `WarmPool.CollectTypes` | `src/cache/device-type-cache.ts:198-222` | the collecting loops compute the first device of each type, skip interfaces that cannot be listed, and give up without a token |
| `WarmPool.CollectsFirstPerType` | `src/cache/device-type-cache.ts:210-221` | exactly the types shown with channels are collected, each once, each the first of its type, in that order |
| `WarmPool.CandidatesMeans` | `src/cache/device-type-cache.ts:198-216` | what is considered: devices with channels of listings that succeeded |
| `WarmPool.CandidatesInOrder` | `src/cache/device-type-cache.ts:198-208` | candidates come in the order of the interfaces |
| `WarmPool.ListingInOrder` | `src/cache/device-type-cache.ts:210-221` | and for each interface in the order of its listing |
| `WarmPool.Pool.constructor` | `src/cache/device-type-cache.ts:241-251` | min(3, n) workers start, each with an index of its own |
| `WarmPool.Pool.TakeNext` | `src/cache/device-type-cache.ts:246-247` | the next index is taken, or the worker is done |
| `WarmPool.Pool.ResumeWorker` | `src/cache/device-type-cache.ts:229-250` | a query's result is cached, a failed one is skipped, and the worker goes on |
| `WarmPool.StepInv` | `src/cache/device-type-cache.ts:241-252` | every step keeps claims in order and accounted for |
| `WarmPool.ClaimedOnce` | `src/cache/device-type-cache.ts:241-252` | in every interleaving each type is claimed once; claimed means ended or in flight with one worker |
| `WarmPool.BoundedConcurrency` | `src/cache/device-type-cache.ts:226-252` | at most min(3, n) queries are in flight, and exactly that many while types are left |
| `WarmPool.QueryStoresItsType` | `src/cache/device-type-cache.ts:229-239` | a query that succeeded stores its own type, a failed one leaves what was cached, and other types are left alone |
| `WarmPool.AllAttempted` | `src/cache/device-type-cache.ts:229-252` | when the pool ends all types were attempted and every success is in the cache, whatever failed |
| `Escape.EscapeHmIsPerChar` | `src/utils.ts:42-49` | the four replacements in sequence are one map over characters |
| `Escape.EscapedLiteralReadsBack` | `src/utils.ts:34-49` | the quoted result scans back to the input and leaves the text after it untouched |
| `Escape.ScriptCodeIsFixed` | `src/tools/control.ts:329-335` | no value changes the code of a script built from fixed pieces and escaped literals, and each literal reads back as its value |
| `Escape.EscapeJsonIsPerChar` | `src/tools/read.ts:151-158` | the five replacements on the CCU are one map over characters |
| `Escape.EscapedJsonReadsBack` | `src/tools/read.ts:145-170` | JSON decoding (section 7 of RFC 8259) gives the value back exactly when tab, CR and LF are its only control characters |
| `Escape.AddrListReadsBack` | `src/tools/read.ts:88-91` | the address literal decodes to the addresses between commas |
| `Escape.FilterIsExact` | `src/tools/read.ts:178-198` | a comma-free channel address is found exactly when it is a comma-separated field of a requested one, so exactly when requested if these hold no comma |
| `Retry.World.SessionCall` | `src/ccu/session.ts:163-204` | the requests of one call, as a function of the answers |
| `Retry.World.WithRetry` | `src/middleware/retry.ts:24-61` | the attempt loop, with sleep and token between attempts, ends as the specification says |
| `Retry.World.SetValue` | `src/tools/control.ts:59-89` | a best-effort read, a token, and a write with or without retries |
| `Retry.World.PutParamset` | `src/tools/control.ts:129-174` | an empty set sends nothing, else a token and a write with or without retries |
| `Retry.Resolver.UpdateDeviceList` | `src/middleware/resolver.ts:118-127` | both maps hold exactly the listed addresses, with the last device of each |
| `Retry.SetValueResendsSafely` | `src/tools/control.ts:67-89` | a write that timed out or was unreachable is repeated only if the cache lists the parameter for the device and channel that the address names, and not as ACTION; each of at most two invocations has a token of its own and sends at most two requests |
| `Retry.PutParamsetResendsSafely` | `src/tools/control.ts:151-174` | the same for a paramset: MASTER, or every key listed so and not as ACTION |
| `Retry.RetryDecisionIsExact` | `src/tools/control.ts:76-89` | some behaviour of the CCU makes set_value repeat a write in doubt if and only if the cache lists the parameter at the named device and channel, not as ACTION; and put_paramset if and only if there are keys and the paramset is MASTER or all keys are listed so |
| `Retry.LastWithMeans` | `src/middleware/resolver.ts:118-127` | the device that counts for an address is the last one in the list that has it, and none if no device has |
| `Retry.AddressParts` | `src/middleware/resolver.ts:57-63` | every address names exactly one device and channel: the parts before the first and the second colon, and channel 0 if that part is missing or empty |
| `Retry.RawTypeIsListed` | `src/middleware/resolver.ts:50-86` | the raw type is T if and only if the device has a non-empty type whose cached entry at channel, paramset and parameter is T |
| `RetryRuns.CallExactly` | `src/ccu/session.ts:163-204` | the requests and logins of one call, and what it returns: a second request exactly if AUTH was followed by a login with another session |
| `RetryRuns.RetriesExactly` | `src/middleware/retry.ts:24-61` | another invocation comes exactly after a timeout or an unreachable CCU while attempts are left, after the delay and with a token; the last outcome is returned, or an error when that token is refused |
| `RetryRuns.SetValueExactly` | `src/tools/control.ts:59-89` | a read that may fail, then a token and a write of one invocation, or at most two if that is safe; the outcome of the last one is returned |
| `RetryRuns.PutParamsetExactly` | `src/tools/control.ts:129-174` | an empty set is refused unsent, any other is written in the same way |
| `Retry.TwoRequestsPerToken` | `src/ccu/session.ts:174-200` | the bounds are reached: a CCU that refuses every first request sees two requests for one token, and four for two |
| `Retry.NonIdempotentOnce` | `src/middleware/retry.ts:4-8` | scripts and program runs are invoked exactly once, and never repeated in doubt |
| `Poller.ResourcePoller.StartPolling` | `src/resources/poller.ts:59-62` | the first timer has the base delay |
| `Poller.ResourcePoller.StopPolling` | `src/resources/poller.ts:64-69` | the active timer is cleared and forgotten |
| `Poller.ResourcePoller.ScheduleIn` | `src/resources/poller.ts:71-84` | a new timer becomes the active one |
| `Poller.ResourcePoller.BeginPoll` | `src/resources/poller.ts:86-94` | the hashes are dropped when the session changed |
| `Poller.ResourcePoller.ReadResources` | `src/resources/poller.ts:96-119` | the loop updates the hash of every read that succeeds, lists the changed ones, and notes any failure |
| `Poller.ResourcePoller.EndReads` | `src/resources/poller.ts:121-128` | failing cycles are counted, a clean one resets the count |
| `Poller.ResourcePoller.SettlePoll` | `src/resources/poller.ts:73-81` | the next timer is armed only if the poller was not stopped meanwhile |
| `Poller.LastReadMeans` | `src/resources/poller.ts:34-37` | the last read since the session switched, in terms of the cycles of the history |
| `Poller.ReportedExactly` | `src/resources/poller.ts:91-119` | in every run a resource is reported in a cycle exactly when it was read, had been read since the last session switch, and differs; in polling order without repeats |
| `Poller.BackoffIsExact` | `src/resources/poller.ts:74-80` | after f cycles in a row in which not all six lists were read, the next delay is the base times 1, 1, 2, 4, 8 for f = 0 to 4, and times 10 from then on |
| `Poller.FirstPollAfterInterval` | `src/resources/poller.ts:59-62` | the first poll comes one base interval after the start |
| `Poller.OneChainAlways` | `src/resources/poller.ts:71-84` | while it runs there is one armed timer or one poll, never both and never two |
| `Poller.StopIsFinal` | `src/resources/poller.ts:64-84` | after `stop()` no timer is armed, even from a poll under way, which is the last |
| `Poller.StartKeepsChainExactly` | `src/resources/poller.ts:59-84` | a start leaves a single chain if and only if no timer is active and no poll under way |
| `Poller.BadStartLeaks` | `src/resources/poller.ts:64-84` | after any other start, letting a poll under way run out and then stopping leaves a timer armed |
| `Poller.RestartMidPollForks` | `src/resources/poller.ts:59-84` | a run that reaches such a state: stopped during a poll, then started again |

## Left out

- Serving over HTTP and stdio, TLS, configuration, logging, health, prompts, the command-line wizard and tool registration: I/O or branch-level facts.
- Timing and randomness of hashing: scrypt, sha256 and `timingSafeEqual` are equality, random tokens are fresh values.
- The session file is one optional id: host, user and credential checks are folded into whether a restore finds an id, and temporary files and renames into one write that happens or not.
- A `Session.login` answered with something other than an id (for instance null) is not modelled.
- That the CCU never issues an id twice is not used: the proofs hold for any answers.
- Error messages, hints and log lines; of an error only its category is kept.
- `callNoSession`, `getSessionId` and `isLoggedIn` on their own, and `liveCount`: one-line reads.
- Rotation ticks do not overlap, and an existing token file can be read; an unreadable one counts as missing in the source.
- `TokenFile.TextIsTheFile`: starts from a text without a blank outgoing token and without an expiry that has none; such hand-made lines are not read back after the next save, and neither is ever accepted as a token.
- Number syntax of JavaScript: printing and reading numbers is a parameter of the file model, with decimal notation as one that qualifies.
- Floating-point rounding in the limiter: the bucket is over real numbers.
- The limiter's interval of 100 ms: ticks may come at any moment while the timer is armed.
- The lookup of existing names before a create or delete of a system variable, and the branches that choose a setter script after the type is known: they do not touch the cache.
- `resolveInterface` and `assertWritable` before a write, and the choice of a value type: they decide whether and with what a write is sent, not how often.
- Sleep durations in retries and the JSON of requests.
- Paramset descriptions, the on-disk device cache, and live queries except that they may store a type while the pool runs.
- The interface list of the warm-up and its `warming` and `stale` flags.
- `Poller.ReportedExactly`: the reads of one cycle are one step; `Poller.OneChainAlways` shows that no other cycle can run in between.
- Notification delivery of the poller: it is awaited, and its failure is only logged.
- Timer delays beyond what `setTimeout` can represent.
- HomeMatic Script beyond string literals and `Find`: what `Replace` and `Find` do on the CCU is taken to be what they do on strings; `\u` escapes of surrogates, which the chain never prints, decode to nothing.
