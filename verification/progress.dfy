/** The progress-bar helpers of both scripts. A bar is an opening bracket,
    then as many hash marks as the floor of the quotient scaled to 50, then
    spaces up to a width of 50, then a closing bracket. The count goes through
    JavaScript number semantics (on exact reals rather than doubles), so a
    zero total yields NaN or an infinity, and the repetition throws a
    RangeError whenever either count is negative or infinite. */
module Progress {
  import opened Common
  import opened JsNumber
  import opened JsString
  import opened NumberText

  const Width: int := 50

  /** The number of hash marks: the quotient of the counts, scaled to the bar
      width and rounded down, with JavaScript division and floor. */
  function HashCount(cur: int, total: int): Num
  {
    Floor(Times(Divide(cur, total), Width))
  }

  /** The bracketed bar: the hash marks, then spaces filling the rest of the
      width; either repetition can throw. */
  function Bar(cur: int, total: int): Completion<string>
  {
    var n := HashCount(cur, total);
    match Repeat('#', n)
    case Abrupt(e) => Abrupt(e)
    case Normal(hashes) =>
      match Repeat(' ', Subtract(Width, n))
      case Abrupt(e) => Abrupt(e)
      case Normal(spaces) => Normal("[" + hashes + spaces + "]")
  }

  /** With a positive divisor, flooring the exact quotient times `w` agrees
      with integer division. */
  lemma FloorScaledQuotient(cur: int, total: int, w: int)
    requires total > 0
    ensures ((cur as real / total as real) * w as real).Floor == (cur * w) / total
  {
    var q := (cur * w) / total;
    var r := (cur * w) % total;
    assert cur * w == q * total + r;
    var v := (cur as real / total as real) * w as real;
    assert v == (cur * w) as real / total as real;
    assert (cur * w) as real == q as real * total as real + r as real;
    assert v == q as real + r as real / total as real;
    assert 0.0 <= r as real / total as real < 1.0;
  }

  /** For a positive total the hash count is `cur * 50 / total`, and the bar
      exists exactly when that count lies in [0, 50]. */
  lemma HashCountPositive(cur: int, total: int)
    requires total > 0
    ensures HashCount(cur, total) == Finite((cur * Width / total) as real)
    ensures 0 <= cur * Width / total <= Width <==> 0 <= cur && cur * Width < (Width + 1) * total
  {
    FloorScaledQuotient(cur, total, Width);
    var q := cur * Width / total;
    var r := cur * Width % total;
    assert cur * Width == q * total + r;
    if q < 0 {
      assert q * total <= -total;
    } else if q > Width {
      assert q * total >= (Width + 1) * total;
    } else {
      assert q * total <= Width * total;
    }
  }

  lemma RepeatWhole(c: char, k: nat)
    ensures Repeat(c, Finite(k as real)) == Normal(Chars(c, k))
  {
    assert IsIntegral(k as real);
    assert ToIntegerOrInfinity(Finite(k as real)) == Int(k);
  }

  /** The bar drawn for an integral hash count `k` in [0, 50]. */
  lemma BarOfCount(cur: int, total: int, k: int)
    requires 0 <= k <= Width
    requires HashCount(cur, total) == Finite(k as real)
    ensures Bar(cur, total) == Normal("[" + Chars('#', k) + Chars(' ', Width - k) + "]")
  {
    RepeatWhole('#', k);
    assert Subtract(Width, Finite(k as real)) == Finite((Width - k) as real);
    RepeatWhole(' ', Width - k);
  }

  lemma BarOfNaN()
    ensures Bar(0, 0) == Normal("[]")
  {
    assert HashCount(0, 0) == NaN;
    assert Repeat('#', NaN) == Normal("");
    assert Repeat(' ', Subtract(Width, NaN)) == Normal("");
    assert "[" + "" + "" + "]" == "[]";
  }

  /** Layout of a bar with `k` hash marks. */
  lemma BarText(k: int)
    requires 0 <= k <= Width
    ensures var s := "[" + Chars('#', k) + Chars(' ', Width - k) + "]";
            |s| == Width + 2 && s[0] == '[' && s[|s| - 1] == ']' &&
            CountChar(s, '#') == k && CountChar(s, ' ') == Width - k &&
            (forall i :: 1 <= i <= k ==> s[i] == '#') &&
            (forall i :: k < i <= Width ==> s[i] == ' ')
  {
    var h := Chars('#', k);
    var sp := Chars(' ', Width - k);
    CountCharAppend("[" + h, sp, '#');
    CountCharAppend("[", h, '#');
    CountCharAppend("[" + h + sp, "]", '#');
    CountCharAppend("[" + h, sp, ' ');
    CountCharAppend("[", h, ' ');
    CountCharAppend("[" + h + sp, "]", ' ');
    CountCharChars('#', '#', k);
    CountCharChars(' ', '#', Width - k);
    CountCharChars('#', ' ', k);
    CountCharChars(' ', ' ', Width - k);
  }

  /** For `0 <= cur <= total` the bar is 52 characters: a bracket, exactly
      `cur * 50 / total` hash marks, spaces making up the rest of the 50, and a
      closing bracket; the count is 50 when `cur == total`. */
  lemma BarShape(cur: int, total: int)
    requires total > 0 && 0 <= cur <= total
    ensures var k := cur * Width / total;
            0 <= k <= Width && (cur == total ==> k == Width) &&
            Bar(cur, total) == Normal("[" + Chars('#', k) + Chars(' ', Width - k) + "]")
    ensures var k := cur * Width / total;
            var s := Bar(cur, total).value;
            |s| == Width + 2 && s[0] == '[' && s[|s| - 1] == ']' &&
            CountChar(s, '#') == k && CountChar(s, ' ') == Width - k &&
            (forall i :: 1 <= i <= k ==> s[i] == '#') &&
            (forall i :: k < i <= Width ==> s[i] == ' ')
  {
    var k := cur * Width / total;
    CountInRange(cur, total);
    HashCountPositive(cur, total);
    BarOfCount(cur, total, k);
    BarText(k);
  }

  lemma CountInRange(cur: int, total: int)
    requires total > 0 && 0 <= cur <= total
    ensures 0 <= cur * Width / total <= Width
    ensures cur == total ==> cur * Width / total == Width
  {
    var q := cur * Width / total;
    var r := cur * Width % total;
    assert cur * Width == q * total + r;
    MulLe(cur, total, Width);
    if q < 0 {
      MulLe(q, -1, total);
      assert false;
    }
    if q > Width {
      MulLe(Width + 1, q, total);
      assert false;
    }
    if cur == total && q < Width {
      MulLe(q, Width - 1, total);
      assert false;
    }
  }

  lemma MulLe(a: int, b: int, t: int)
    requires a <= b && t >= 0
    ensures a * t <= b * t
  {
  }

  /** When the bar can be drawn and when `repeat` throws instead: for a
      positive total exactly when `0 <= cur` and `cur * 50 < 51 * total`; for a
      zero total only at `cur == 0`, where NaN counts draw the empty bar `[]`;
      for a negative total exactly when the quotient is in [0, 51/50). */
  lemma BarOutcome(cur: int, total: int)
    ensures total > 0 ==> (Bar(cur, total).Normal? <==> 0 <= cur && cur * Width < (Width + 1) * total)
    ensures total == 0 ==> (Bar(cur, total).Normal? <==> cur == 0)
    ensures total == 0 && cur == 0 ==> Bar(cur, total) == Normal("[]")
    ensures total < 0 ==> (Bar(cur, total).Normal? <==> cur <= 0 && -cur * Width < (Width + 1) * -total)
  {
    if total > 0 {
      BarOutcomePositive(cur, total);
    } else if total < 0 {
      assert HashCount(cur, total) == HashCount(-cur, -total) by {
        assert cur as real / total as real == (-cur) as real / (-total) as real;
      }
      BarOutcomePositive(-cur, -total);
    } else if cur == 0 {
      BarOfNaN();
    }
  }

  /** The bar outcome depends on the hash count only. */
  lemma BarOutcomePositive(cur: int, total: int)
    requires total > 0
    ensures Bar(cur, total).Normal? <==> 0 <= cur && cur * Width < (Width + 1) * total
  {
    HashCountPositive(cur, total);
    var k := cur * Width / total;
    if 0 <= k <= Width {
      BarOfCount(cur, total, k);
    }
  }

  /** A drawn bar means the quotient `cur / total` is NaN or lies in [0, 51/50). */
  lemma BarNormalRange(cur: int, total: int)
    ensures Bar(cur, total).Normal? ==>
              (total == 0 && cur == 0) ||
              (total != 0 && 0.0 <= (cur as real / total as real) * Width as real < (Width + 1) as real)
  {
    if Bar(cur, total).Normal? && total != 0 {
      var n := HashCount(cur, total);
      assert n.Finite?;
      assert n.v > -1.0;
      assert Subtract(Width, n).v > -1.0;
    }
  }

  /** record_animation.js: the log line `File i/n: <bar> cur/total`. */
  function BatchLine(cur: int, total: int, currentFile: int, totalFiles: int): (r: Completion<string>)
    ensures r.Normal? <==> Bar(cur, total).Normal?
  {
    match Bar(cur, total)
    case Abrupt(e) => Abrupt(e)
    case Normal(bar) =>
      Normal("File " + IntToString(currentFile) + "/" + IntToString(totalFiles) + ": " +
             bar + " " + IntToString(cur) + "/" + IntToString(total))
  }

  /** record_animation2.js: a carriage return, the bar, and the percentage
      `(cur / total) * 100` printed with two decimals. The percentage is only
      formatted once the bar has been drawn, which bounds it below 102. */
  function SingleLine(cur: int, total: int): (r: Completion<string>)
    ensures r.Normal? <==> Bar(cur, total).Normal?
  {
    match Bar(cur, total)
    case Abrupt(e) => Abrupt(e)
    case Normal(bar) => Normal("\r" + bar + " " + PercentText(cur, total) + "%")
  }

  /** The quotient as a percentage with two decimals, computed only once the
      bar has been drawn. */
  function PercentText(cur: int, total: int): string
    requires Bar(cur, total).Normal?
  {
    BarNormalRange(cur, total);
    NumToFixed2(Times(Divide(cur, total), 100))
  }

  /** The text of a drawn line: the bar, then the percentage. */
  lemma SingleLineOfBar(cur: int, total: int, bar: string)
    requires Bar(cur, total) == Normal(bar)
    ensures SingleLine(cur, total) == Normal("\r" + bar + " " + PercentText(cur, total) + "%")
  {
  }

  /** For `0 <= cur <= total` the line is the bar followed by the percentage
      `cur * 100 / total`, which lies in [0, 100]. */
  lemma SingleLineInRange(cur: int, total: int)
    requires total > 0 && 0 <= cur <= total
    ensures var p := (cur as real / total as real) * 100.0;
            0.0 <= p <= 100.0 &&
            SingleLine(cur, total) == Normal("\r" + Bar(cur, total).value + " " + ToFixed2(p) + "%")
  {
    BarOutcomePositive(cur, total);
    assert cur * Width < (Width + 1) * total by {
      MulLe(cur, total, Width);
    }
    var q := cur as real / total as real;
    QuotientUnit(cur, total);
    assert Times(Divide(cur, total), 100) == Finite(q * 100.0);
    assert PercentText(cur, total) == ToFixed2(q * 100.0);
    SingleLineOfBar(cur, total, Bar(cur, total).value);
  }

  lemma QuotientUnit(cur: int, total: int)
    requires total > 0 && 0 <= cur <= total
    ensures 0.0 <= cur as real / total as real <= 1.0
  {
  }

  /** The last settle step shows a full bar and `100.00%`. */
  lemma SingleLineFull(total: int)
    requires total > 0
    ensures SingleLine(total, total) == Normal("\r[" + Chars('#', Width) + "] 100.00%")
  {
    var hashes := Chars('#', Width);
    var bar := "[" + hashes + "]";
    assert Bar(total, total) == Normal(bar) by {
      BarShape(total, total);
      assert total * Width / total == Width;
      assert Chars(' ', 0) == "";
      assert "[" + hashes + "" + "]" == bar;
    }
    assert PercentText(total, total) == "100.00" by {
      assert Divide(total, total) == Finite(1.0);
      ToFixed2Hundred();
    }
    SingleLineOfBar(total, total, bar);
    assert "\r" + bar + " " + "100.00" + "%" == "\r[" + hashes + "] 100.00%";
  }

  /** `progressBar(0, 0)`: 0/0 is NaN, both `repeat` calls count 0, and the
      percentage prints as `NaN`. */
  lemma SingleLineZeroOfZero()
    ensures SingleLine(0, 0) == Normal("\r[] NaN%")
  {
    BarOfNaN();
    assert Times(Divide(0, 0), 100) == NaN;
    SingleLineOfBar(0, 0, "[]");
    assert "\r" + "[]" + " " + "NaN" + "%" == "\r[] NaN%";
  }

  /** The batch log line for a finished file shows a full bar. */
  lemma BatchLineFull(total: int, currentFile: int, totalFiles: int)
    requires total > 0
    ensures BatchLine(total, total, currentFile, totalFiles) ==
            Normal("File " + IntToString(currentFile) + "/" + IntToString(totalFiles) + ": [" +
                   Chars('#', Width) + "] " + IntToString(total) + "/" + IntToString(total))
  {
    BarShape(total, total);
    assert total * Width / total == Width;
    var bar := "[" + Chars('#', Width) + Chars(' ', 0) + "]";
    assert Bar(total, total) == Normal(bar);
    assert bar == "[" + Chars('#', Width) + "]";
    assert BatchLine(total, total, currentFile, totalFiles) ==
      Normal("File " + IntToString(currentFile) + "/" + IntToString(totalFiles) + ": " +
             bar + " " + IntToString(total) + "/" + IntToString(total));
    assert "File " + IntToString(currentFile) + "/" + IntToString(totalFiles) + ": " +
             bar + " " + IntToString(total) + "/" + IntToString(total) == "File " + IntToString(currentFile) + "/" + IntToString(totalFiles) + ": [" +
                   Chars('#', Width) + "] " + IntToString(total) + "/" + IntToString(total);
  }
}
