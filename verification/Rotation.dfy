/**
 Resolving and rotating the auto-generated bearer token: `resolveAuthTokens` and
 `startAutoRotation` of src/auth/token.ts.

 The token file is the four fields that `parsePersisted` reads (EnvFile relates
 them to the text).  A save may fail; a read of an existing file succeeds.  Minted tokens
 are fresh.  A rotation tick reads the clock twice, when it resolves and when it swaps.
 */
module Rotation {
  import opened Wrappers
  import opened AuthTokens

  datatype Persisted = Persisted(
    token: Option<Token>, issued: Option<int>, previous: Option<Token>, previousExpires: Option<int>)

  datatype Options = Options(
    envToken: Option<Token>, envPrevious: Option<Token>, ttl: Option<int>, grace: int, announceUnpersisted: bool)

  datatype Resolution = Resolution(file: Persisted, entries: seq<TokenEntry>, announced: bool)

  predicate Truthy(t: Option<Token>) {
    t.Some? && t.value != ""
  }

  function Max(a: int, b: int): int {
    if a <= b then b else a
  }

  // ---------------------------------------------------------------- resolveAuthTokens

  predicate Stamps(st: Persisted, ttl: Option<int>) {
    Truthy(st.token) && ttl.Some? && st.issued == None
  }

  predicate Rotates(st: Persisted, ttl: Option<int>, now: int, lookahead: int) {
    Truthy(st.token) && ttl.Some? && st.issued.Some? && now + lookahead - st.issued.value >= ttl.value
  }

  function RotatedOut(st: Persisted, o: Options, now: int, minted: Token): Persisted
    requires st.issued.Some? && o.ttl.Some?
  {
    Persisted(Some(minted), Some(now), st.token, Some(Max(now + o.grace, st.issued.value + o.ttl.value)))
  }

  /** Generate, start the clock, rotate, or leave as it is. */
  function Renewed(st: Persisted, o: Options, now: int, lookahead: int, minted: Token): Persisted {
    if !Truthy(st.token) then Persisted(Some(minted), Some(now), None, None)
    else if Stamps(st, o.ttl) then st.(issued := Some(now))
    else if Rotates(st, o.ttl, now, lookahead) then RotatedOut(st, o, now, minted)
    else st
  }

  predicate Prunable(st: Persisted, now: int) {
    st.previous.Some? && st.previousExpires.Some? && now > st.previousExpires.value
  }

  function Pruned(st: Persisted, now: int): Persisted {
    if Prunable(st, now) then st.(previous := None, previousExpires := None) else st
  }

  function EntriesOf(st: Persisted, ttl: Option<int>): seq<TokenEntry>
    requires st.token.Some?
  {
    [TokenEntry(st.token.value,
                if ttl.Some? && st.issued.Some? then Some(st.issued.value + ttl.value) else None,
                "generated")]
    + (if st.previous.Some? && st.previousExpires.Some?
       then [TokenEntry(st.previous.value, Some(st.previousExpires.value), "rotated-out")] else [])
  }

  function EnvEntries(o: Options): seq<TokenEntry>
    requires o.envToken.Some?
  {
    [TokenEntry(o.envToken.value, None, "env")]
    + (if Truthy(o.envPrevious) then [TokenEntry(o.envPrevious.value, None, "env-previous")] else [])
  }

  function Resolve(file: Persisted, o: Options, now: int, lookahead: int, minted: Token, saveOk: bool): Resolution {
    if Truthy(o.envToken) then Resolution(file, EnvEntries(o), false)
    else
      var next := Pruned(Renewed(file, o, now, lookahead, minted), now);
      var mints := !Truthy(file.token);
      var rotates := Rotates(file, o.ttl, now, lookahead);
      var changed := mints || rotates || Stamps(file, o.ttl) || Prunable(file, now);
      var saved := !changed || saveOk;
      var state := if rotates && !saved then file else next;
      Resolution(if changed && saved then next else file,
                 EntriesOf(state, o.ttl),
                 if mints then saved || o.announceUnpersisted else rotates && saved)
  }

  /** The token file of one data directory. */
  class TokenStore {
    var file: Persisted

    constructor (file: Persisted)
      ensures this.file == file
    {
      this.file := file;
    }

    method Persist(state: Persisted, saveOk: bool) returns (saved: bool)
      modifies this
      ensures saved == saveOk && file == if saveOk then state else old(file)
    {
      if saveOk {
        file := state;
      }
      return saveOk;
    }

    method ResolveAuthTokens(o: Options, now: int, lookahead: int, minted: Token, saveOk: bool)
      returns (tokens: AuthTokens, announced: bool)
      modifies this
      ensures fresh(tokens)
      ensures Resolution(file, tokens.entries, announced) == Resolve(old(file), o, now, lookahead, minted, saveOk)
    {
      announced := false;
      if Truthy(o.envToken) {
        var entries := [TokenEntry(o.envToken.value, None, "env")];
        if Truthy(o.envPrevious) {
          entries := entries + [TokenEntry(o.envPrevious.value, None, "env-previous")];
        }
        tokens := new AuthTokens(entries);
        return;
      }

      var state := file;
      var changed, isNew, rotated := false, false, false;
      var preRotation := state;

      if !Truthy(state.token) {
        state := Persisted(Some(minted), Some(now), None, None);
        changed, isNew := true, true;
      } else if o.ttl.Some? {
        if state.issued == None {
          state := state.(issued := Some(now));
          changed := true;
        } else if now + lookahead - state.issued.value >= o.ttl.value {
          state := Persisted(Some(minted), Some(now), state.token,
                             Some(Max(now + o.grace, state.issued.value + o.ttl.value)));
          changed, isNew, rotated := true, true, true;
        }
      }

      if state.previous.Some? && state.previousExpires.Some? && now > state.previousExpires.value {
        state := state.(previous := None, previousExpires := None);
        changed := true;
      }

      var saved := true;
      if changed {
        saved := Persist(state, saveOk);
        if !saved && rotated {
          state := preRotation;
          isNew, rotated := false, false;
        }
      }
      announced := isNew && (saved || o.announceUnpersisted);

      var entries := [TokenEntry(state.token.value,
                                 if o.ttl.Some? && state.issued.Some? then Some(state.issued.value + o.ttl.value) else None,
                                 "generated")];
      if state.previous.Some? && state.previousExpires.Some? {
        entries := entries + [TokenEntry(state.previous.value, Some(state.previousExpires.value), "rotated-out")];
      }
      tokens := new AuthTokens(entries);
    }
  }
}
