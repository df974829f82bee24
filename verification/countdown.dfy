/**
 * The mm:ss countdown the front end draws in three places, and the status
 * labels beside it. Times are integer milliseconds; `now` is the clock
 * reading Date.now() would give.
 */
module Countdown {
  import opened Common
  import opened GoText

  /** `${minutes.padStart(2, '0')}:${seconds.padStart(2, '0')}` for r milliseconds. */
  function Clock(r: nat): (s: string)
    ensures |s| >= 5 && s[|s| - 3] == ':' && IsDigit(s[0])
  {
    var secs := (r % 60000) / 1000;
    assert FormatNat(secs) == if secs < 10 then [DigitChar(secs)] else FormatNat(secs / 10) + [DigitChar(secs % 10)];
    PadLeft(FormatNat(r / 60000), 2, '0') + ":" + PadLeft(FormatNat(secs), 2, '0')
  }

  /** Zero-padding a number's digits keeps it a digit string of the same value. */
  lemma PaddedDigits(n: nat, width: nat)
    ensures AllDigits(PadLeft(FormatNat(n), width, '0'))
    ensures ParseNat(PadLeft(FormatNat(n), width, '0')) == n
  {
    var f := FormatNat(n);
    ParseFormatNat(n);
    if |f| < width {
      var z := width - |f|;
      assert PadLeft(f, width, '0') == seq(z, _ => '0') + f;
      ParseNatLeadingZeros(z, f);
    }
  }

  /** A number below 100 has at most two digits. */
  lemma TwoDigits(n: nat)
    requires n < 100
    ensures |FormatNat(n)| <= 2
  {
    if n >= 10 {
      assert FormatNat(n) == FormatNat(n / 10) + [DigitChar(n % 10)];
    }
  }

  /**
   * The shown minutes and seconds describe r to the second: seconds are
   * below 60 and the time they name is at most r and less than a second
   * short of it.
   */
  lemma ClockFields(r: nat)
    ensures 0 <= (r % 60000) / 1000 < 60
    ensures (r / 60000) * 60000 + ((r % 60000) / 1000) * 1000 <= r
    ensures r < (r / 60000) * 60000 + ((r % 60000) / 1000) * 1000 + 1000
  {
  }

  /** Reads "mm:ss" text back into its minutes and seconds; anything else reads as None. */
  function ReadClock(s: string): Option<(nat, nat)>
  {
    if |s| >= 4 && s[|s| - 3] == ':' && AllDigits(s[..|s| - 3]) && AllDigits(s[|s| - 2..])
    then Some((ParseNat(s[..|s| - 3]), ParseNat(s[|s| - 2..])))
    else None
  }

  /** Reading the clock text back gives the minutes and seconds it was made from. */
  lemma ClockReadsBack(r: nat)
    ensures ReadClock(Clock(r)) == Some((r / 60000, (r % 60000) / 1000))
  {
    var secs := (r % 60000) / 1000;
    var mm := PadLeft(FormatNat(r / 60000), 2, '0');
    var ss := PadLeft(FormatNat(secs), 2, '0');
    assert Clock(r) == mm + ":" + ss;
    TwoDigits(secs);
    PaddedDigits(r / 60000, 2);
    PaddedDigits(secs, 2);
    ReadJoined(mm, ss);
  }

  /** "mm:ss" made of a digit string and two digits reads back as their values. */
  lemma ReadJoined(mm: string, ss: string)
    requires AllDigits(mm) && |mm| >= 1 && AllDigits(ss) && |ss| == 2
    ensures ReadClock(mm + ":" + ss) == Some((ParseNat(mm), ParseNat(ss)))
  {
    SplitAtColon(mm, ss);
  }

  /** The minutes and seconds read back from the clock text name r to the second. */
  lemma ClockNamesTime(r: nat)
    ensures ReadClock(Clock(r)).Some?
    ensures var (m, sec) := ReadClock(Clock(r)).value;
            sec < 60 && m * 60000 + sec * 1000 <= r < m * 60000 + sec * 1000 + 1000
  {
    ClockReadsBack(r);
    ClockFields(r);
  }

  /** Cutting "mm:ss" at the colon gives back both parts. */
  lemma SplitAtColon(mm: string, ss: string)
    requires |ss| == 2
    ensures var s := mm + ":" + ss; s[..|s| - 3] == mm && s[|s| - 2..] == ss
  {
    var s := mm + ":" + ss;
    assert s[..|s| - 3] == mm;
  }

  /** Clock(0) is the text the product card shows once time is up. */
  lemma ClockOfZero()
    ensures Clock(0) == "00:00"
  {
    assert FormatNat(0) == "0";
  }

  /** getStatusText: the label for a status string; any other text is 未知. */
  function StatusText(status: string): (t: string)
    ensures StatusFromName(status).None? <==> t == "未知"
  {
    if status == "not_started" then "準備中"
    else if status == "active" then "競標中"
    else if status == "ended" then "已結束"
    else "未知"
  }

  /** The three statuses have three different labels. */
  lemma StatusTextDistinguishes(a: ProductStatus, b: ProductStatus)
    ensures StatusText(StatusName(a)) == StatusText(StatusName(b)) <==> a == b
  {
  }
}

/** The countdown of the lobby's product list. */
module ProductLobbyPage {
  import opened Common
  import opened GoText
  import opened Countdown

  /**
   * CountdownTimer: not_started counts down to the start, active to the
   * end, each clamped at 0; any other status, or nothing left, shows 已結束.
   */
  function LobbyCountdown(status: string, startTime: int, endTime: int, now: int): (s: string)
    ensures status == "not_started" && startTime > now ==> s == "距開始：" + Clock(startTime - now)
    ensures status == "active" && endTime > now ==> s == "距結束：" + Clock(endTime - now)
    ensures s == "已結束" <==> !(status == "not_started" && startTime > now) && !(status == "active" && endTime > now)
  {
    var (remaining, prefix) :=
      if status == "not_started" then (MaxInt(0, startTime - now), "距開始：")
      else if status == "active" then (MaxInt(0, endTime - now), "距結束：")
      else (0, "");
    if status != "not_started" && status != "active" then "已結束"
    else if remaining <= 0 then "已結束"
    else prefix + Clock(remaining)
  }

  /** An ended product's countdown and its status label say the same. */
  lemma EndedLabelsAgree(startTime: int, endTime: int, now: int)
    ensures LobbyCountdown("ended", startTime, endTime, now) == StatusText("ended") == "已結束"
  {
  }
}

/** The countdown and status label of the product detail view. */
module ProductInfo {
  import opened Common
  import opened Countdown
  import ProductLobbyPage

  /**
   * The effect of ProductInfo: an ended product shows 已結束 at once;
   * otherwise the remaining time is counted as the lobby does, an unknown
   * status counting as nothing left.
   */
  function InfoCountdown(status: string, startTime: int, endTime: int, now: int): (s: string)
  {
    if status == "ended" then "已結束"
    else
      var remaining :=
        if status == "not_started" then MaxInt(0, startTime - now)
        else if status == "active" then MaxInt(0, endTime - now)
        else 0;
      var prefix := if status == "not_started" then "距開始：" else if status == "active" then "距結束：" else "";
      if remaining <= 0 then "已結束" else prefix + Clock(remaining)
  }

  /** The detail view and the lobby show the same countdown for every product and clock reading. */
  lemma InfoMatchesLobby(status: string, startTime: int, endTime: int, now: int)
    ensures InfoCountdown(status, startTime, endTime, now) == ProductLobbyPage.LobbyCountdown(status, startTime, endTime, now)
  {
  }
}

/** The countdown and ended banner of the auction page's product card. */
module ProductCard {
  import opened Common
  import opened Countdown
  import ProductLobbyPage

  /** What the card shows: the time-left text and whether the ended banner is drawn. */
  datatype CardView = CardView(timeLeft: string, endedBanner: bool)

  /**
   * ProductCard: no end time (null or the falsy 0) or a status other than
   * active shows --:--; nothing left shows 00:00; otherwise mm:ss with no
   * prefix. The banner is drawn exactly for an ended product.
   */
  function Card(status: ProductStatus, endTime: Option<int>, now: int): (v: CardView)
    ensures v.endedBanner <==> status == Ended
    ensures v.timeLeft == "--:--" <==> endTime.None? || endTime.value == 0 || status != Active
  {
    var timeLeft :=
      if endTime.None? || endTime.value == 0 || status != Active then "--:--"
      else
        var remaining := MaxInt(0, endTime.value - now);
        if remaining <= 0 then "00:00" else Clock(remaining);
    CardView(timeLeft, status == Ended)
  }

  /**
   * For an active product the card's text is the lobby's with the prefix
   * dropped, and 00:00 is the clock of the clamped remaining time; the
   * banner and a running clock never appear together.
   */
  lemma CardIsLobbyWithoutPrefix(endTime: int, startTime: int, now: int)
    requires endTime != 0
    ensures endTime > now ==>
              ProductLobbyPage.LobbyCountdown("active", startTime, endTime, now) == "距結束：" + Card(Active, Some(endTime), now).timeLeft
    ensures Card(Active, Some(endTime), now).timeLeft == Clock(MaxInt(0, endTime - now))
    ensures Card(Ended, Some(endTime), now).timeLeft == "--:--"
  {
    ClockOfZero();
  }
}
