/**
 * The music player's navigation and playback state: moving through a fixed
 * playlist, what happens when a track ends, the play and mute toggles, and the
 * `m:ss` rendering of a time in seconds.
 */
module MusicPlayer {
  import opened Options

  datatype Song = Song(title: string, artist: string, url: string, cover: string)

  /** The player's fixed playlist. */
  const Playlist: seq<Song> := [
    Song("Shadow Warriors", "Neon Fighters", "https://example.com/song1.mp3",
         "https://images.pexels.com/photos/1616470/pexels-photo-1616470.jpeg"),
    Song("Neon Dreams", "Cyber Beats", "https://example.com/song2.mp3",
         "https://images.pexels.com/photos/1034662/pexels-photo-1034662.jpeg")
  ]

  /** The index after `i` in a playlist of `n` songs, wrapping to the first. */
  function NextIndex(i: int, n: int): (r: int)
    requires 0 <= i < n
    ensures 0 <= r < n
    ensures r == if i == n - 1 then 0 else i + 1
  {
    (i + 1) % n
  }

  /** The index before `i`, wrapping to the last. */
  function PreviousIndex(i: int, n: int): (r: int)
    requires 0 <= i < n
    ensures 0 <= r < n
    ensures r == if i == 0 then n - 1 else i - 1
  {
    (i - 1 + n) % n
  }

  lemma PreviousAfterNext(i: int, n: int)
    requires 0 <= i < n
    ensures PreviousIndex(NextIndex(i, n), n) == i
  {
  }

  lemma NextAfterPrevious(i: int, n: int)
    requires 0 <= i < n
    ensures NextIndex(PreviousIndex(i, n), n) == i
  {
  }

  /** `k` presses of next from `i`. */
  function NextTimes(i: int, n: int, k: nat): (r: int)
    requires 0 <= i < n
    ensures 0 <= r < n
  {
    if k == 0 then i else NextIndex(NextTimes(i, n, k - 1), n)
  }

  lemma ScaledAtLeast(d: int, n: int)
    requires d >= 1 && n > 0
    ensures d * n >= n
  {
  }

  /** A remainder is determined by any quotient-remainder split. */
  lemma ModOfSplit(a: int, n: int, q: int, r: int)
    requires 0 <= r < n && a == q * n + r
    ensures a % n == r
  {
    var q', r' := a / n, a % n;
    assert a == q' * n + r';
    var d := q - q';
    assert d * n == q * n - q' * n;
    if d >= 1 {
      ScaledAtLeast(d, n);
    } else if d <= -1 {
      ScaledAtLeast(-d, n);
    }
  }

  /** One step of next, read on remainders. */
  lemma ModStep(a: int, n: int)
    requires a >= 0 && n > 0
    ensures (a + 1) % n == NextIndex(a % n, n)
  {
    var q, j := a / n, a % n;
    assert a == q * n + j;
    if j == n - 1 {
      assert a + 1 == (q + 1) * n + 0;
      ModOfSplit(a + 1, n, q + 1, 0);
    } else {
      assert a + 1 == q * n + (j + 1);
      ModOfSplit(a + 1, n, q, j + 1);
    }
  }

  /** Pressing next `k` times moves `k` places round the playlist. */
  lemma {:induction false} NextTimesMoves(i: int, n: int, k: nat)
    requires 0 <= i < n
    ensures NextTimes(i, n, k) == (i + k) % n
  {
    if k == 0 {
      ModOfSplit(i, n, 0, i);
    } else {
      NextTimesMoves(i, n, k - 1);
      ModStep(i + k - 1, n);
    }
  }

  /** So `n` presses of next come back to the song one started from. */
  lemma NextCycles(i: int, n: int)
    requires 0 <= i < n
    ensures NextTimes(i, n, n) == i
  {
    NextTimesMoves(i, n, n);
    ModOfSplit(i + n, n, 1, i);
  }

  /** The waveform instance, when one is mounted: whether it is playing and
      the volume it outputs. */
  datatype Engine = Engine(playing: bool, volume: real)

  class Player {
    var isPlaying: bool
    var volume: real
    var isMuted: bool
    var isRepeat: bool
    var isShuffle: bool
    var currentSongIndex: int
    var engine: Option<Engine>

    ghost predicate Valid()
      reads this
    {
      0 <= currentSongIndex < |Playlist|
    }

    /** The state on mount: first song, paused, volume 0.8, nothing toggled.
        `mounted` says whether the waveform container exists, in which case an
        engine is created and given the volume. */
    constructor (mounted: bool)
      ensures Valid()
      ensures currentSongIndex == 0 && !isPlaying && !isMuted && !isRepeat && !isShuffle
      ensures volume == 0.8
      ensures engine == if mounted then Some(Engine(false, 0.8)) else None
    {
      isPlaying := false;
      volume := 0.8;
      isMuted := false;
      isRepeat := false;
      isShuffle := false;
      currentSongIndex := 0;
      engine := if mounted then Some(Engine(false, 0.8)) else None;
    }

    /** Play/pause: flips the flag and the engine together, but only when an
        engine exists; otherwise nothing changes. */
    method TogglePlay()
      modifies this
      ensures engine.Some? <==> old(engine).Some?
      ensures old(engine).Some? ==>
        isPlaying == !old(isPlaying) && engine == Some(old(engine).value.(playing := isPlaying))
      ensures old(engine).None? ==> isPlaying == old(isPlaying) && engine == old(engine)
      ensures currentSongIndex == old(currentSongIndex) && volume == old(volume)
      ensures isMuted == old(isMuted) && isRepeat == old(isRepeat) && isShuffle == old(isShuffle)
    {
      if engine.Some? {
        engine := Some(engine.value.(playing := !isPlaying));
        isPlaying := !isPlaying;
      }
    }

    method Previous()
      requires Valid()
      modifies this
      ensures Valid()
      ensures currentSongIndex == PreviousIndex(old(currentSongIndex), |Playlist|)
      ensures isPlaying
      ensures engine == old(engine) && volume == old(volume)
      ensures isMuted == old(isMuted) && isRepeat == old(isRepeat) && isShuffle == old(isShuffle)
    {
      currentSongIndex := (currentSongIndex - 1 + |Playlist|) % |Playlist|;
      isPlaying := true;
    }

    method Next()
      requires Valid()
      modifies this
      ensures Valid()
      ensures currentSongIndex == NextIndex(old(currentSongIndex), |Playlist|)
      ensures isPlaying
      ensures engine == old(engine) && volume == old(volume)
      ensures isMuted == old(isMuted) && isRepeat == old(isRepeat) && isShuffle == old(isShuffle)
    {
      currentSongIndex := (currentSongIndex + 1) % |Playlist|;
      isPlaying := true;
    }

    /** Mute/unmute: the engine outputs 0 when muting and the chosen volume
        when unmuting; the chosen volume itself is kept. Without an engine
        nothing changes. */
    method ToggleMute()
      modifies this
      ensures engine.Some? <==> old(engine).Some?
      ensures old(engine).Some? ==>
        && isMuted == !old(isMuted)
        && engine == Some(old(engine).value.(volume := if isMuted then 0.0 else volume))
      ensures old(engine).None? ==> isMuted == old(isMuted) && engine == old(engine)
      ensures volume == old(volume) && isPlaying == old(isPlaying)
      ensures currentSongIndex == old(currentSongIndex)
      ensures isRepeat == old(isRepeat) && isShuffle == old(isShuffle)
    {
      if engine.Some? {
        engine := Some(engine.value.(volume := if isMuted then volume else 0.0));
        isMuted := !isMuted;
      }
    }

    method ToggleShuffle()
      modifies this
      ensures isShuffle == !old(isShuffle)
      ensures isRepeat == old(isRepeat) && isMuted == old(isMuted) && isPlaying == old(isPlaying)
      ensures currentSongIndex == old(currentSongIndex) && engine == old(engine) && volume == old(volume)
    {
      isShuffle := !isShuffle;
    }

    method ToggleRepeat()
      modifies this
      ensures isRepeat == !old(isRepeat)
      ensures isShuffle == old(isShuffle) && isMuted == old(isMuted) && isPlaying == old(isPlaying)
      ensures currentSongIndex == old(currentSongIndex) && engine == old(engine) && volume == old(volume)
    {
      isRepeat := !isRepeat;
    }

    /** The end of a track. `repeat` and `shuffle` are the flags the handler
        captured when the track was loaded. Repeat restarts the same track;
        otherwise shuffle jumps to some song of the playlist; otherwise the
        player advances as for next. */
    method OnFinish(repeat: bool, shuffle: bool)
      requires Valid()
      modifies this
      ensures Valid()
      ensures repeat ==> currentSongIndex == old(currentSongIndex)
      ensures repeat ==> engine == if old(engine).Some? then Some(old(engine).value.(playing := true)) else None
      ensures !repeat ==> engine == if old(engine).Some? then Some(old(engine).value.(playing := false)) else None
      ensures !repeat && !shuffle ==> currentSongIndex == NextIndex(old(currentSongIndex), |Playlist|)
      ensures isPlaying == old(isPlaying) && volume == old(volume) && isMuted == old(isMuted)
      ensures isRepeat == old(isRepeat) && isShuffle == old(isShuffle)
    {
      // the track has played to its end, so the engine has stopped
      if engine.Some? {
        engine := Some(engine.value.(playing := false));
      }
      if repeat {
        if engine.Some? {
          engine := Some(engine.value.(playing := true));
        }
      } else if shuffle {
        var pick :| 0 <= pick < |Playlist|;
        currentSongIndex := pick;
      } else {
        currentSongIndex := (currentSongIndex + 1) % |Playlist|;
      }
    }
  }

  /** Pressing a toggle twice restores the flag. */
  method ToggleTwice(p: Player)
    modifies p
    ensures p.isShuffle == old(p.isShuffle) && p.isRepeat == old(p.isRepeat)
  {
    p.ToggleShuffle();
    p.ToggleShuffle();
    p.ToggleRepeat();
    p.ToggleRepeat();
  }

  /* ---- Rendering a time as m:ss ---- */

  predicate IsDigit(c: char) {
    '0' <= c <= '9'
  }

  predicate AllDigits(s: string) {
    forall i :: 0 <= i < |s| ==> IsDigit(s[i])
  }

  function DigitChar(d: int): (c: char)
    requires 0 <= d < 10
    ensures IsDigit(c) && c as int - '0' as int == d
  {
    ('0' as int + d) as char
  }

  /** The decimal digits of a whole number, as `toString` writes them. */
  function NatToString(n: nat): (s: string)
    ensures AllDigits(s)
    ensures 1 <= |s|
    ensures n < 10 ==> |s| == 1
    ensures 10 <= n < 100 ==> |s| == 2
  {
    if n < 10 then [DigitChar(n)] else NatToString(n / 10) + [DigitChar(n % 10)]
  }

  /** `toString` of an integer: a minus sign before the digits of a negative one. */
  function IntToString(i: int): (s: string)
    ensures i >= 0 ==> AllDigits(s) && DigitsValue(s) == i
    ensures i < 0 ==> |s| >= 2 && s[0] == '-' && AllDigits(s[1..]) && DigitsValue(s[1..]) == -i
  {
    if i < 0 then
      var digits := NatToString(-i);
      NatToStringReadsBack(-i);
      assert ("-" + digits)[1..] == digits;
      "-" + digits
    else
      NatToStringReadsBack(i);
      NatToString(i)
  }

  /** `padStart(2, '0')`: zeros in front up to two characters. */
  function PadStart2(s: string): (r: string)
    ensures |r| == if |s| >= 2 then |s| else 2
    ensures r[|r| - |s|..] == s
    ensures forall i :: 0 <= i < |r| - |s| ==> r[i] == '0'
  {
    if |s| >= 2 then s else seq(2 - |s|, _ => '0') + s
  }

  /** JavaScript's `%` on a positive divisor: the remainder truncates toward
      zero, so it takes the sign of the dividend. */
  function JsRem(a: int, b: int): (r: int)
    requires b > 0
    ensures -b < r < b
    ensures a >= 0 ==> 0 <= r && r == a % b
    ensures a < 0 ==> r <= 0
    ensures (a - r) % b == 0
  {
    if a >= 0 then
      ModOfSplit(a - a % b, b, a / b, 0);
      a % b
    else
      var r := -((-a) % b);
      assert -a == (-a) / b * b + (-a) % b;
      ModOfSplit(a - r, b, -((-a) / b), 0);
      r
  }

  /** `formatTime` for a whole number of seconds: floor of the minutes, a colon,
      and the remaining seconds padded to two digits. */
  function FormatTime(t: int): (s: string)
    // for t >= 0 the text reads back as the whole minutes and, in two digits,
    // the seconds left over
    ensures t >= 0 ==> ReadTime(s) == Some((t / 60, t % 60))
  {
    var text := IntToString(t / 60) + ":" + PadStart2(IntToString(JsRem(t, 60)));
    if t >= 0 then
      var minutes, seconds := t / 60, t % 60;
      assert text == NatToString(minutes) + ":" + PadStart2(NatToString(seconds));
      PaddedSeconds(seconds);
      NatToStringReadsBack(minutes);
      ReadTimeOf(NatToString(minutes), PadStart2(NatToString(seconds)));
      text
    else
      text
  }

  /** The number a string of decimal digits denotes. */
  function DigitsValue(s: string): nat
    requires AllDigits(s)
  {
    if |s| == 0 then 0 else 10 * DigitsValue(s[..|s| - 1]) + (s[|s| - 1] as int - '0' as int)
  }

  /** Reads `m:ss` back: the digits before the colon and the two after it. */
  function ReadTime(s: string): Option<(nat, nat)> {
    if |s| >= 4 && s[|s| - 3] == ':' && AllDigits(s[..|s| - 3]) && AllDigits(s[|s| - 2..])
    then Some((DigitsValue(s[..|s| - 3]), DigitsValue(s[|s| - 2..])))
    else None
  }

  lemma {:induction false} NatToStringReadsBack(n: nat)
    ensures DigitsValue(NatToString(n)) == n
  {
    if n >= 10 {
      var s := NatToString(n / 10) + [DigitChar(n % 10)];
      assert s[..|s| - 1] == NatToString(n / 10);
      NatToStringReadsBack(n / 10);
    }
  }

  lemma {:induction false} LeadingZero(s: string)
    requires AllDigits(s)
    ensures DigitsValue("0" + s) == DigitsValue(s)
  {
    if |s| > 0 {
      var z := "0" + s;
      assert z[..|z| - 1] == "0" + s[..|s| - 1];
      LeadingZero(s[..|s| - 1]);
    }
  }

  lemma ReadTimeOf(m: string, p: string)
    requires AllDigits(m) && 1 <= |m| && AllDigits(p) && |p| == 2
    ensures ReadTime(m + ":" + p) == Some((DigitsValue(m), DigitsValue(p)))
  {
    var s := m + ":" + p;
    assert s[..|s| - 3] == m;
    assert s[|s| - 2..] == p;
  }

  /** The seconds part: two digits that denote the seconds. */
  lemma PaddedSeconds(x: nat)
    requires x < 60
    ensures |PadStart2(NatToString(x))| == 2
    ensures AllDigits(PadStart2(NatToString(x)))
    ensures DigitsValue(PadStart2(NatToString(x))) == x
  {
    var ss := NatToString(x);
    NatToStringReadsBack(x);
    if x < 10 {
      assert PadStart2(ss) == "0" + ss;
      LeadingZero(ss);
    } else {
      assert PadStart2(ss) == ss;
    }
  }
}
