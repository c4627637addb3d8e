/**
 What one `resolveAuthTokens` of src/auth/token.ts accepts, saves and announces, for every
 token file, every options, every clock and either outcome of the save.
 */
module ResolvedTokens {
  import opened Wrappers
  import opened AuthTokens
  import opened Rotation

  // ---------------------------------------------------------------- operator tokens

  /** With an operator token the resolved set accepts that one and the operator's previous one, at every
      moment and nothing else; the file is not touched and nothing is announced. */
  lemma OperatorTokensExactly(
    file: Persisted, o: Options, now: int, lookahead: int, minted: Token, saveOk: bool, t: Token, at: int)
    requires Truthy(o.envToken)
    ensures var r := Resolve(file, o, now, lookahead, minted, saveOk);
      && (Accepts(r.entries, t, at) <==> t == o.envToken.value || (Truthy(o.envPrevious) && t == o.envPrevious.value))
      && r.file == file && !r.announced
  {
    var r := Resolve(file, o, now, lookahead, minted, saveOk);
    AcceptsIn(r.entries, t, at);
    assert TokenEntry(o.envToken.value, None, "env") in r.entries;
    if Truthy(o.envPrevious) {
      assert TokenEntry(o.envPrevious.value, None, "env-previous") in r.entries;
    }
  }

  // ---------------------------------------------------------------- the token file

  /** The token in the file has a clock that has run for its ttl, up to the lookahead. */
  predicate Due(file: Persisted, o: Options, now: int, lookahead: int) {
    Truthy(file.token) && o.ttl.Some? && file.issued.Some? && file.issued.value + o.ttl.value <= now + lookahead
  }

  /** A token issued at `since` has not outlived its ttl, if it has one. */
  predicate Within(ttl: Option<int>, since: int, at: int) {
    ttl.Some? ==> at <= since + ttl.value
  }

  /** `t` is the outgoing token of the file, before its recorded expiry. */
  predicate OutgoingAt(file: Persisted, t: Token, at: int) {
    t != "" && file.previous == Some(t) && file.previousExpires.Some? && at <= file.previousExpires.value
  }

  /** From when the ttl of the file's own token counts: a file without a clock is given one now. */
  function Since(file: Persisted, now: int): int {
    if file.issued.Some? then file.issued.value else now
  }

  /** The resolved set should accept `t` at `at`, going by the file alone. */
  predicate ShouldAccept(
    file: Persisted, o: Options, now: int, lookahead: int, minted: Token, saveOk: bool, t: Token, at: int)
  {
    if !Truthy(file.token) then t == minted && Within(o.ttl, now, at)
    else if Due(file, o, now, lookahead) && saveOk then
      || (t == minted && Within(o.ttl, now, at))
      || (file.token == Some(t) && (at <= now + o.grace || at <= file.issued.value + o.ttl.value))
    else (file.token == Some(t) && Within(o.ttl, Since(file, now), at)) || OutgoingAt(file, t, at)
  }

  /** Without an operator token the resolved set accepts, from now on, exactly: a fresh token if the file
      had none; a fresh one and the one it replaces, for its overlap, if that was due and could be saved;
      and else the file's token for the rest of its ttl and the outgoing one until its recorded expiry. */
  lemma FileTokensExactly(
    file: Persisted, o: Options, now: int, lookahead: int, minted: Token, saveOk: bool, t: Token, at: int)
    requires !Truthy(o.envToken) && minted != "" && now <= at
    ensures Accepts(Resolve(file, o, now, lookahead, minted, saveOk).entries, t, at) <==>
              ShouldAccept(file, o, now, lookahead, minted, saveOk, t, at)
  {
    var next := Pruned(Renewed(file, o, now, lookahead, minted), now);
    EntriesAccept(if Rotates(file, o.ttl, now, lookahead) && !saveOk then file else next, o.ttl, t, at);
  }

  lemma EntriesAccept(st: Persisted, ttl: Option<int>, t: Token, at: int)
    requires st.token.Some?
    ensures Accepts(EntriesOf(st, ttl), t, at) <==>
      || (t != "" && st.token == Some(t) && (st.issued.Some? ==> Within(ttl, st.issued.value, at)))
      || OutgoingAt(st, t, at)
  {
    var entries := EntriesOf(st, ttl);
    AcceptsIn(entries, t, at);
    assert entries[0] in entries;
    if st.previous.Some? && st.previousExpires.Some? {
      assert entries[1] == TokenEntry(st.previous.value, Some(st.previousExpires.value), "rotated-out");
      assert entries[1] in entries;
    }
  }

  /** Without a ttl the token in the file is accepted at every moment, and stays there. */
  lemma NoTtlNoEnd(file: Persisted, o: Options, now: int, lookahead: int, minted: Token, saveOk: bool, at: int)
    requires !Truthy(o.envToken) && o.ttl == None && Truthy(file.token)
    ensures var r := Resolve(file, o, now, lookahead, minted, saveOk);
      Accepts(r.entries, file.token.value, at) && r.file.token == file.token && r.file.issued == file.issued
  {
    EntriesAccept(Pruned(file, now), o.ttl, file.token.value, at);
  }

  /** A token is announced exactly if it is the fresh one the set now starts with, and it was saved or may
      be announced unsaved. */
  lemma AnnouncedExactly(file: Persisted, o: Options, now: int, lookahead: int, minted: Token, saveOk: bool)
    requires !Truthy(o.envToken) && file.token != Some(minted)
    ensures var r := Resolve(file, o, now, lookahead, minted, saveOk);
      && |r.entries| >= 1
      && (r.announced <==> r.entries[0].hash == minted && (r.file.token == Some(minted) || o.announceUnpersisted))
  {
  }

  /** What the file should say of its own token after a save. */
  predicate OwnTokenSaved(file: Persisted, o: Options, now: int, lookahead: int, minted: Token, after: Persisted) {
    if !Truthy(file.token) || Due(file, o, now, lookahead) then after.token == Some(minted) && after.issued == Some(now)
    else after.token == file.token && after.issued == if o.ttl.Some? then Some(Since(file, now)) else file.issued
  }

  /** Until when a token that is replaced now stays accepted: its grace, and no less than its own ttl. */
  function Overlap(file: Persisted, o: Options, now: int): int
    requires file.issued.Some? && o.ttl.Some?
  {
    if now + o.grace < file.issued.value + o.ttl.value then file.issued.value + o.ttl.value else now + o.grace
  }

  /** What it should say of the outgoing one: the token just replaced, or the one before until it lapses. */
  predicate OutgoingSaved(file: Persisted, o: Options, now: int, lookahead: int, minted: Token, after: Persisted) {
    if !Truthy(file.token) then after.previous == None && after.previousExpires == None
    else if Due(file, o, now, lookahead) && now <= Overlap(file, o, now) then
      after.previous == file.token && after.previousExpires == Some(Overlap(file, o, now))
    else if Due(file, o, now, lookahead) then after.previous == None && after.previousExpires == None
    else if file.previous.Some? && file.previousExpires.Some? && file.previousExpires.value < now then
      after.previous == None && after.previousExpires == None
    else after.previous == file.previous && after.previousExpires == file.previousExpires
  }

  /** A save leaves the file naming the fresh token if there was none or the old one was due, its clock
      started, and the outgoing token with the later of its grace and its own ttl, gone once that lapsed;
      a failed save leaves the file. */
  lemma SavedExactly(file: Persisted, o: Options, now: int, lookahead: int, minted: Token)
    requires !Truthy(o.envToken)
    ensures Resolve(file, o, now, lookahead, minted, false).file == file
    ensures OwnTokenSaved(file, o, now, lookahead, minted, Resolve(file, o, now, lookahead, minted, true).file)
    ensures OutgoingSaved(file, o, now, lookahead, minted, Resolve(file, o, now, lookahead, minted, true).file)
  {
  }

  /** Restarting on what was saved, before the token is due, changes no answer. */
  lemma RestartAcceptsSame(
    file: Persisted, o: Options, now: int, lookahead: int, minted: Token,
    later: int, minted2: Token, saveOk: bool, t: Token, at: int)
    requires !Truthy(o.envToken) && minted != "" && minted2 != "" && now <= later <= at
    requires !Due(Resolve(file, o, now, lookahead, minted, true).file, o, later, 0)
    ensures var r := Resolve(file, o, now, lookahead, minted, true);
      Accepts(Resolve(r.file, o, later, 0, minted2, saveOk).entries, t, at) <==> Accepts(r.entries, t, at)
  {
    var r := Resolve(file, o, now, lookahead, minted, true);
    FileTokensExactly(file, o, now, lookahead, minted, true, t, at);
    FileTokensExactly(r.file, o, later, 0, minted2, saveOk, t, at);
    SavedExactly(file, o, now, lookahead, minted);
  }
}
