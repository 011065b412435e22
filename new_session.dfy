/** The running practice-session page: the elapsed-time counter, its minute:second display, and
    the update sent to the store when the session ends. Instants are milliseconds since the epoch;
    the clock itself is a parameter. */
module NewSession {
  import opened Wrappers
  import Text

  /** Whole seconds between two instants: `Math.floor((now - start) / 1000)`. Dafny's `/` on
      `int` with a positive divisor rounds down, as `Math.floor` of the quotient does, for
      negative differences too. */
  function ElapsedSeconds(startMs: int, nowMs: int): (r: int)
    ensures 1000 * r <= nowMs - startMs < 1000 * (r + 1)
  {
    (nowMs - startMs) / 1000
  }

  /** A later reading of the clock never shows fewer elapsed seconds. */
  lemma ElapsedMonotone(startMs: int, now1: int, now2: int)
    requires now1 <= now2
    ensures ElapsedSeconds(startMs, now1) <= ElapsedSeconds(startMs, now2)
  {
    var r1, r2 := ElapsedSeconds(startMs, now1), ElapsedSeconds(startMs, now2);
    assert 1000 * r1 < 1000 * (r2 + 1);
  }

  /** The duration saved with the session: `Math.floor(elapsedSeconds / 60)` whole minutes. */
  function TotalMinutes(elapsedSeconds: int): (r: int)
    ensures 60 * r <= elapsedSeconds < 60 * (r + 1)
  {
    elapsedSeconds / 60
  }

  /** JavaScript's `elapsedSeconds % 60`: the remainder takes the sign of the dividend. */
  function JsRemainder60(a: int): (r: int)
    ensures (a - r) % 60 == 0
    ensures a >= 0 ==> 0 <= r < 60
    ensures a < 0 ==> -60 < r <= 0
  {
    if a >= 0 then a % 60 else -((-a) % 60)
  }

  /** The "{m}m : {s}s" pair shown while the session runs. */
  function ElapsedDisplay(elapsedSeconds: int): (r: (int, int))
    ensures 60 * r.0 <= elapsedSeconds < 60 * (r.0 + 1)
    ensures (elapsedSeconds - r.1) % 60 == 0 && -60 < r.1 < 60
  {
    (TotalMinutes(elapsedSeconds), JsRemainder60(elapsedSeconds))
  }

  /** For a non-negative count, the display splits it exactly into minutes and seconds below 60. */
  lemma DisplayRecombines(elapsedSeconds: int)
    requires elapsedSeconds >= 0
    ensures var (m, s) := ElapsedDisplay(elapsedSeconds);
      60 * m + s == elapsedSeconds && 0 <= s < 60 && m == TotalMinutes(elapsedSeconds)
  {
    var m, s := TotalMinutes(elapsedSeconds), JsRemainder60(elapsedSeconds);
    assert s == elapsedSeconds % 60;
  }

  /** A negative count (a start instant later than the clock) is shown with the floored minute but
      the truncated second, so the two parts no longer add up: -5 s reads "-1m : -5s". */
  lemma NegativeDisplayMismatch()
    ensures ElapsedDisplay(-5) == (-1, -5)
    ensures var (m, s) := ElapsedDisplay(-5); 60 * m + s != -5
  {
  }

  /** `songTitle.trim() || session.song`: the trimmed title the player typed, or the stored song when
      the field holds only whitespace. */
  function FinalSong(songTitle: string, sessionSong: string): (r: string)
    ensures Text.AllWhitespace(songTitle) ==> r == sessionSong
    ensures !Text.AllWhitespace(songTitle) ==> r != "" && Text.Trimmed(r) && r == Text.Trim(songTitle)
  {
    Text.TrimEmptyIffBlank(songTitle);
    var title := Text.Trim(songTitle);
    if title != "" then title else sessionSong
  }

  /** The fields of a session document the page uses. */
  datatype Session = Session(id: string, song: string, startMs: int)

  /** What `handleEndSession` writes to the store. */
  datatype SessionUpdate = SessionUpdate(song: string, duration: int)

  /** The update `handleEndSession` sends, or nothing when the session id, the loaded session's id
      or the user is missing. */
  function EndSessionUpdate(sessionId: Option<string>, session: Option<Session>, user: Option<string>,
                            elapsedSeconds: int, songTitle: string): (r: Option<SessionUpdate>)
    ensures r.None? <==> !IsSet(sessionId) || session.None? || session.value.id == "" || user.None?
    ensures r.Some? ==> 60 * r.value.duration <= elapsedSeconds < 60 * (r.value.duration + 1)
    ensures r.Some? && Text.AllWhitespace(songTitle) ==> r.value.song == session.value.song
    ensures r.Some? && !Text.AllWhitespace(songTitle) ==> r.value.song == Text.Trim(songTitle)
  {
    if !IsSet(sessionId) || session.None? || session.value.id == "" || user.None? then None
    else Some(SessionUpdate(FinalSong(songTitle, session.value.song), TotalMinutes(elapsedSeconds)))
  }

  /** The page's timer state. */
  class NewSessionPage {
    const sessionId: Option<string>
    const user: Option<string>
    var session: Option<Session>
    var elapsedSeconds: int
    var timerRunning: bool
    /** The clock reading of the latest tick. */
    ghost var lastNowMs: int

    /** While the timer runs, the counter shows the seconds from the session's start to the latest tick. */
    ghost predicate Valid()
      reads this
    {
      timerRunning ==> session.Some? && elapsedSeconds == ElapsedSeconds(session.value.startMs, lastNowMs)
    }

    constructor (sessionId: Option<string>, user: Option<string>)
      ensures this.sessionId == sessionId && this.user == user
      ensures session == None && elapsedSeconds == 0 && !timerRunning
      ensures Valid()
    {
      this.sessionId := sessionId;
      this.user := user;
      session := None;
      elapsedSeconds := 0;
      timerRunning := false;
      lastNowMs := 0;
    }

    /** The fetch effect: without a session id or a signed-in user it does nothing; otherwise
        `found` is the session document, if it exists. The session is kept under the page's id,
        the counter starts from the document's start instant, and the one-second timer starts. */
    method LoadSession(found: Option<Session>, nowMs: int)
      requires Valid()
      modifies this
      ensures Valid()
      ensures !IsSet(sessionId) || user.None? || found.None? ==>
        session == old(session) && elapsedSeconds == old(elapsedSeconds) && timerRunning == old(timerRunning)
      ensures IsSet(sessionId) && user.Some? && found.Some? ==>
        session == Some(found.value.(id := sessionId.value)) && timerRunning
      ensures IsSet(sessionId) && user.Some? && found.Some? ==>
        elapsedSeconds == ElapsedSeconds(found.value.startMs, nowMs) && lastNowMs == nowMs
    {
      if !IsSet(sessionId) || user.None? {
        return;
      }
      if found.Some? {
        session := Some(found.value.(id := sessionId.value));
        elapsedSeconds := ElapsedSeconds(found.value.startMs, nowMs);
        lastNowMs := nowMs;
        timerRunning := true;
      }
    }

    /** One tick of the interval timer. When the clock has not gone backwards, the counter does not
        go down. */
    method Tick(nowMs: int)
      requires Valid() && timerRunning
      modifies this`elapsedSeconds, this`lastNowMs
      ensures Valid()
      ensures elapsedSeconds == ElapsedSeconds(session.value.startMs, nowMs) && lastNowMs == nowMs
      ensures nowMs >= old(lastNowMs) ==> elapsedSeconds >= old(elapsedSeconds)
    {
      if nowMs >= lastNowMs {
        ElapsedMonotone(session.value.startMs, lastNowMs, nowMs);
      }
      elapsedSeconds := ElapsedSeconds(session.value.startMs, nowMs);
      lastNowMs := nowMs;
    }

    /** `handleEndSession`: returns the update it asks the store for (`None`: it returns early);
        `saved` says whether the store accepted it, in which case the timer stops. */
    method EndSession(songTitle: string, saved: bool) returns (update: Option<SessionUpdate>)
      requires Valid()
      modifies this`timerRunning
      ensures Valid()
      ensures update == EndSessionUpdate(sessionId, session, user, elapsedSeconds, songTitle)
      ensures timerRunning == (old(timerRunning) && !(update.Some? && saved))
    {
      update := EndSessionUpdate(sessionId, session, user, elapsedSeconds, songTitle);
      if update.Some? && saved {
        timerRunning := false;
      }
    }
  }
}
