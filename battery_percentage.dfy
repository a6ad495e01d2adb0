/**
 * The status-bar battery percentage text: it shows the battery level followed
 * by a percent sign and, while charging below 100%, is coloured by the
 * charging style (a fixed charging colour, or a colour animation between the
 * icon colour and the charging colour).
 * Models StatusbarBatteryPercentage; the text view is a record and the colour
 * animator is reduced to the pair of colours it runs between.
 */
module BatteryPercentage {
  import opened Wrappers

  const ChargingStyleNone := 0
  const ChargingStyleStatic := 1
  const ChargingStyleAnimated := 2

  /** android.graphics.Color.GREEN (0xFF00FF00) as a signed 32-bit int: the default charging colour. */
  const Green := -16711936
  const DefaultPercentSign := "%"

  /** The part of BatteryInfoManager.BatteryData the text uses. */
  datatype BatteryData = BatteryData(level: int, charging: bool)

  /** The TextView's text, text colour and alpha. */
  datatype TextView = TextView(text: string, color: int, alpha: real)

  /** A running charge animation, interpolating between two colours. */
  datatype ChargeAnim = ChargeAnim(fromColor: int, toColor: int)

  /** What the icon manager reports; `iconColor` is its array of icon colours. */
  datatype ColorInfo = ColorInfo(coloringEnabled: bool, iconColor: seq<int>, alphaTextAndBattery: real)

  /** The stored preferences read at construction, None where absent. */
  datatype BatteryPrefs = BatteryPrefs(percentSign: Option<string>, chargingStyle: Option<int>,
                                       chargingColor: Option<int>)

  // ---------------------------------------------------------------------------
  // Decimal text of the level (Java's int-to-String conversion)

  function DigitChar(d: nat): (c: char)
    requires d < 10
    ensures '0' <= c <= '9' && c as int - '0' as int == d
  {
    "0123456789"[d]
  }

  predicate AllDigits(s: string)
  {
    forall i :: 0 <= i < |s| ==> '0' <= s[i] <= '9'
  }

  /** The decimal digits of `n`, most significant first, without leading zeros. */
  function NatDigits(n: nat): (s: string)
    ensures |s| >= 1 && AllDigits(s)
    ensures n > 0 ==> s[0] != '0'
    decreases n
  {
    if n < 10 then [DigitChar(n)] else NatDigits(n / 10) + [DigitChar(n % 10)]
  }

  /** Integer.toString: a minus sign for negative numbers, then the digits. */
  function IntToString(n: int): string
  {
    if n < 0 then "-" + NatDigits(-n) else NatDigits(n)
  }

  /** The value of a string of decimal digits. */
  function DigitsValue(s: string): nat
    requires AllDigits(s)
  {
    if s == [] then 0 else DigitsValue(s[..|s| - 1]) * 10 + (s[|s| - 1] as int - '0' as int)
  }

  /** The inverse of IntToString. */
  function ParseInt(s: string): int
    requires |s| >= 1 && (AllDigits(s) || (s[0] == '-' && AllDigits(s[1..])))
  {
    if s[0] == '-' then -(DigitsValue(s[1..]) as int) else DigitsValue(s)
  }

  lemma {:induction false} NatDigitsRoundTrip(n: nat)
    ensures DigitsValue(NatDigits(n)) == n
    decreases n
  {
    if n >= 10 {
      NatDigitsRoundTrip(n / 10);
      var s := NatDigits(n);
      assert s[..|s| - 1] == NatDigits(n / 10);
    }
  }

  /** The shown level can be read back: IntToString is injective. */
  lemma IntToStringRoundTrip(n: int)
    ensures var s := IntToString(n); |s| >= 1 && (AllDigits(s) || (s[0] == '-' && AllDigits(s[1..])))
    ensures ParseInt(IntToString(n)) == n
  {
    if n < 0 {
      NatDigitsRoundTrip(-n);
      assert IntToString(n)[1..] == NatDigits(-n);
    } else {
      NatDigitsRoundTrip(n);
    }
  }

  // ---------------------------------------------------------------------------
  // What update() shows

  /** The text update() sets: the level followed by the percent sign. */
  function PercentText(level: int, sign: string): string
  {
    IntToString(level) + sign
  }

  /** The displayed text splits into the level, which reads back, and the current sign. */
  lemma PercentTextParts(level: int, sign: string)
    ensures var t := PercentText(level, sign);
            var n := |t| - |sign|;
            && 1 <= n <= |t| && t[n..] == sign
            && (AllDigits(t[..n]) || (t[0] == '-' && AllDigits(t[1..n])))
            && ParseInt(t[..n]) == level
  {
    IntToStringRoundTrip(level);
    var t := PercentText(level, sign);
    assert t[..|t| - |sign|] == IntToString(level);
  }

  /** Charging and not yet full: the only case in which the charging style applies. */
  predicate ChargingBelowFull(d: BatteryData)
  {
    d.charging && d.level < 100
  }

  /** The charge animation runs exactly in the ANIMATED style while charging below 100%. */
  predicate Animates(d: BatteryData, style: int)
  {
    ChargingBelowFull(d) && style == ChargingStyleAnimated
  }

  /** The text colour when no animation runs. */
  function SteadyColor(d: BatteryData, style: int, iconColor: int, chargingColor: int): int
  {
    if ChargingBelowFull(d) && style == ChargingStyleStatic then chargingColor else iconColor
  }

  /**
   * The charging colour is shown only in the STATIC style while charging below
   * 100%; not charging, full, or any style other than STATIC shows the icon colour.
   */
  lemma SteadyColorCases(d: BatteryData, style: int, iconColor: int, chargingColor: int)
    ensures !d.charging || d.level >= 100 ==> SteadyColor(d, style, iconColor, chargingColor) == iconColor
    ensures !d.charging || d.level >= 100 ==> !Animates(d, style)
    ensures style != ChargingStyleStatic ==> SteadyColor(d, style, iconColor, chargingColor) == iconColor
    ensures SteadyColor(d, style, iconColor, chargingColor) == chargingColor && chargingColor != iconColor
            ==> d.charging && d.level < 100 && style == ChargingStyleStatic
  {
  }

  class StatusbarBatteryPercentage {
    var view: TextView
    const defaultColor: int
    var iconColor: int
    var percentSign: string
    var batteryData: Option<BatteryData>
    var chargeAnim: Option<ChargeAnim>
    var chargingStyle: int
    var chargingColor: int

    /** The text shown for battery data `d` under the current settings. */
    ghost predicate Shows(d: BatteryData)
      reads this
    {
      && view.text == PercentText(d.level, percentSign)
      && (chargeAnim.Some? <==> Animates(d, chargingStyle))
      && (chargeAnim.None? ==> view.color == SteadyColor(d, chargingStyle, iconColor, chargingColor))
    }

    /**
     * The display matches the state: once battery data has arrived the view
     * shows what update() would show, and a running animation always runs
     * between the current icon colour and the current charging colour.
     */
    ghost predicate Valid()
      reads this
    {
      && (chargeAnim.Some? ==> batteryData.Some? && chargeAnim.value == ChargeAnim(iconColor, chargingColor))
      && (batteryData.Some? ==> Shows(batteryData.value))
    }

    /** Captures the view's colour as the default and icon colour, then applies the stored preferences. */
    constructor (initial: TextView, prefs: BatteryPrefs)
      ensures Valid()
      ensures view == initial && defaultColor == initial.color && iconColor == initial.color
      ensures batteryData.None? && chargeAnim.None?
      ensures percentSign == prefs.percentSign.GetOr(DefaultPercentSign)
      ensures chargingStyle == prefs.chargingStyle.GetOr(ChargingStyleNone)
      ensures chargingColor == prefs.chargingColor.GetOr(Green)
    {
      view := initial;
      defaultColor := initial.color;
      iconColor := initial.color;
      percentSign := DefaultPercentSign;
      batteryData := None;
      chargeAnim := None;
      chargingStyle := 0;
      chargingColor := 0;
      new;
      SetPercentSign(prefs.percentSign.GetOr(DefaultPercentSign));
      SetChargingStyle(prefs.chargingStyle.GetOr(ChargingStyleNone));
      SetChargingColor(prefs.chargingColor.GetOr(Green));
    }

    /** Starts an animation from the icon colour to the charging colour unless one is running; says whether it did. */
    method StartChargingAnimation() returns (started: bool)
      modifies this`chargeAnim
      ensures started <==> old(chargeAnim).None?
      ensures chargeAnim == if started then Some(ChargeAnim(iconColor, chargingColor)) else old(chargeAnim)
    {
      if chargeAnim.None? {
        chargeAnim := Some(ChargeAnim(iconColor, chargingColor));
        return true;
      }
      return false;
    }

    /** Ends a running animation, whose end listener resets the text to the icon colour; says whether one ran. */
    method StopChargingAnimation() returns (stopped: bool)
      modifies this`chargeAnim, this`view
      ensures stopped <==> old(chargeAnim).Some?
      ensures chargeAnim.None?
      ensures view == if stopped then old(view).(color := iconColor) else old(view)
    {
      if chargeAnim.Some? {
        view := view.(color := iconColor);
        chargeAnim := None;
        return true;
      }
      return false;
    }

    /**
     * update(): nothing before battery data has arrived; otherwise the text is
     * the level and the sign, and the charging style decides the colour and
     * whether the animation runs.
     */
    method Update()
      modifies this`chargeAnim, this`view
      ensures old(Valid()) ==> Valid()
      ensures batteryData.Some? && (old(chargeAnim).Some? ==> old(chargeAnim).value == ChargeAnim(iconColor, chargingColor))
              ==> Valid()
      ensures batteryData.None? ==> chargeAnim == old(chargeAnim) && view == old(view)
      ensures batteryData.Some? ==>
                var d := batteryData.value;
                && view.text == PercentText(d.level, percentSign)
                && view.alpha == old(view.alpha)
                && (chargeAnim.Some? <==> Animates(d, chargingStyle))
                && (Animates(d, chargingStyle) ==>
                      && view.color == old(view.color)
                      && chargeAnim == if old(chargeAnim).Some? then old(chargeAnim)
                                       else Some(ChargeAnim(iconColor, chargingColor)))
                && (!Animates(d, chargingStyle) ==>
                      view.color == SteadyColor(d, chargingStyle, iconColor, chargingColor))
    {
      if batteryData.None? {
        return;
      }
      var d := batteryData.value;
      view := view.(text := PercentText(d.level, percentSign));
      if d.charging && d.level < 100 {
        if chargingStyle == ChargingStyleStatic {
          var _ := StopChargingAnimation();
          view := view.(color := chargingColor);
        } else if chargingStyle == ChargingStyleAnimated {
          var _ := StartChargingAnimation();
        } else {
          var _ := StopChargingAnimation();
          view := view.(color := iconColor);
        }
      } else {
        var _ := StopChargingAnimation();
        view := view.(color := iconColor);
      }
    }

    /**
     * setTextColor: the new icon colour is stored and any animation stopped
     * before update() runs, so an ANIMATED charging state restarts with the new
     * colour and the text starts from it.
     */
    method SetTextColor(color: int)
      requires Valid()
      modifies this`iconColor, this`chargeAnim, this`view
      ensures Valid() && iconColor == color
      ensures view.alpha == old(view.alpha)
      ensures batteryData.None? ==> view == old(view)
      ensures batteryData.Some? && Animates(batteryData.value, chargingStyle)
              ==> chargeAnim == Some(ChargeAnim(color, chargingColor)) && view.color == color
    {
      iconColor := color;
      var _ := StopChargingAnimation();
      Update();
    }

    /** setChargingColor: as setTextColor, for the charging colour. */
    method SetChargingColor(color: int)
      requires Valid()
      modifies this`chargingColor, this`chargeAnim, this`view
      ensures Valid() && chargingColor == color
      ensures view.alpha == old(view.alpha)
      ensures batteryData.None? ==> view == old(view)
      ensures batteryData.Some? && Animates(batteryData.value, chargingStyle)
              ==> chargeAnim == Some(ChargeAnim(iconColor, color)) && view.color == iconColor
    {
      chargingColor := color;
      var _ := StopChargingAnimation();
      Update();
    }

    /** setPercentSign: the sign is stored and the text redrawn. */
    method SetPercentSign(sign: string)
      requires Valid()
      modifies this`percentSign, this`chargeAnim, this`view
      ensures Valid() && percentSign == sign
      ensures chargeAnim == old(chargeAnim) && view.alpha == old(view.alpha)
      ensures batteryData.None? ==> view == old(view)
      ensures batteryData.Some? && Animates(batteryData.value, chargingStyle) ==> view.color == old(view.color)
    {
      percentSign := sign;
      Update();
    }

    /** setChargingStyle: the style is stored and the display redone. */
    method SetChargingStyle(style: int)
      requires Valid()
      modifies this`chargingStyle, this`chargeAnim, this`view
      ensures Valid() && chargingStyle == style
      ensures view.alpha == old(view.alpha)
      ensures batteryData.None? ==> view == old(view)
      ensures batteryData.Some? && Animates(batteryData.value, chargingStyle)
              ==> view.color == old(view.color)
                  && chargeAnim == if old(chargeAnim).Some? then old(chargeAnim)
                                   else Some(ChargeAnim(iconColor, chargingColor))
    {
      chargingStyle := style;
      Update();
    }

    /** onBatteryStatusChanged: the data is stored, then update() runs. */
    method OnBatteryStatusChanged(data: BatteryData)
      requires Valid()
      modifies this`batteryData, this`chargeAnim, this`view
      ensures Valid() && batteryData == Some(data)
      ensures view.alpha == old(view.alpha)
      ensures Animates(data, chargingStyle) ==> view.color == old(view.color)
    {
      batteryData := Some(data);
      Update();
    }

    /**
     * onIconManagerStatusChanged: a colour change sets the text colour to the
     * first icon colour when colouring is enabled, else back to the default
     * colour; an alpha change without a colour change only sets the alpha.
     * `colorChanged` and `alphaChanged` are the FLAG_ICON_COLOR_CHANGED and
     * FLAG_ICON_ALPHA_CHANGED bits of the flags.
     */
    method OnIconManagerStatusChanged(colorChanged: bool, alphaChanged: bool, info: ColorInfo)
      requires Valid()
      requires colorChanged && info.coloringEnabled ==> |info.iconColor| >= 1
      modifies this`iconColor, this`chargeAnim, this`view
      ensures Valid()
      ensures colorChanged ==> iconColor == (if info.coloringEnabled then info.iconColor[0] else defaultColor)
      ensures colorChanged ==> view.alpha == old(view.alpha)
      ensures colorChanged && batteryData.None? ==> view == old(view)
      ensures colorChanged && batteryData.Some? && Animates(batteryData.value, chargingStyle)
              ==> view.color == iconColor && chargeAnim == Some(ChargeAnim(iconColor, chargingColor))
      ensures !colorChanged ==> iconColor == old(iconColor) && chargeAnim == old(chargeAnim)
      ensures !colorChanged ==> view == if alphaChanged then old(view).(alpha := info.alphaTextAndBattery) else old(view)
    {
      if colorChanged {
        if info.coloringEnabled {
          SetTextColor(info.iconColor[0]);
        } else {
          SetTextColor(defaultColor);
        }
      } else if alphaChanged {
        view := view.(alpha := info.alphaTextAndBattery);
      }
    }
  }
}
