/**
 * The general calculator page: a display string edited by button presses
 * (clear, backspace, append up to twelve characters, evaluate) and a
 * newest-first history of at most ten evaluations. The expression evaluator
 * (`safeEval`, dynamic code) and the number-to-text renderings it feeds are
 * not computed here: each evaluation arrives as an `Evaluation` value.
 */
module Calculator {
  import opened Options
  import opened JsMath
  import opened Parsing
  import opened FixedPoint
  import History

  /** The display never grows past this many characters by button input. */
  const MaxDisplayLength: nat := 12
  const HistoryCap: nat := 10

  /**
   * The backspace token the input handler tests for: the "⌫" symbol as the
   * page's source file stores it, three characters (`â`, `Œ`, `«`).
   */
  const Backspace: string := "\U{00E2}\U{0152}\U{00AB}"

  /** The buttons of the keypad, row by row. */
  const Buttons: seq<string> := [
    "C", "(", ")", "/",
    "7", "8", "9", "*",
    "4", "5", "6", "-",
    "1", "2", "3", "+",
    "0", ".", "e", "="
  ]

  datatype HistoryItem = HistoryItem(expression: string, result: string)

  /**
   * What `safeEval` did with the display: it threw (a syntax error, or a
   * result that is not a finite number), or it returned `value`, whose
   * `toString()` is `shortest` and whose `toExponential(d)` is `exponential`.
   */
  datatype Evaluation = Threw | Returned(value: real, shortest: string, exponential: string)

  /**
   * `formatNumber`: the exponential text when the plain rendering is longer
   * than the display, otherwise `toFixed` with the chosen number of decimals.
   */
  function FormatNumber(value: real, shortest: string, exponential: string, decimals: nat): (s: string)
    ensures |shortest| > MaxDisplayLength ==> s == exponential
    ensures |shortest| <= MaxDisplayLength ==>
      ParseFloat(s).Some? && -0.5 / Pow10(decimals) as real <= ParseFloat(s).value - value <= 0.5 / Pow10(decimals) as real
  {
    if |shortest| > MaxDisplayLength then exponential
    else
      ParseFloatOfToFixed(value, decimals);
      FixedValueIsNear(value, decimals);
      ToFixed(value, decimals)
  }

  /**
   * The display after a key other than "=": cleared by "C", one character
   * shorter after backspace, and otherwise the key appended unless the
   * display is already at its limit.
   */
  function KeyDisplay(display: string, key: string): (d: string)
    requires key != "="
    ensures key == "C" ==> d == ""
    ensures key != "C" && key == Backspace ==> |d| == Max0(|display| - 1) && d == display[..|d|]
    ensures key != "C" && key != Backspace && |display| >= MaxDisplayLength ==> d == display
    ensures key != "C" && key != Backspace && |display| < MaxDisplayLength ==> d == display + key
  {
    if key == "C" then ""
    else if key == Backspace then (if display == [] then [] else display[..|display| - 1])
    else if |display| >= MaxDisplayLength then display
    else display + key
  }

  function Max0(n: int): (m: nat)
    ensures m == n || (n < 0 && m == 0)
  {
    if n < 0 then 0 else n
  }

  /** A keypad key: one of the buttons, all of them a single character. */
  predicate IsButton(key: string)
  {
    key in Buttons
  }

  lemma ButtonIsOneCharacter(key: string)
    requires IsButton(key)
    ensures |key| == 1 && key != Backspace
  {
  }

  /** The display after pressing `keys` in turn, none of them "=". */
  function Presses(display: string, keys: seq<string>): string
    requires forall k :: 0 <= k < |keys| ==> keys[k] != "="
    decreases keys
  {
    if keys == [] then display else Presses(KeyDisplay(display, keys[0]), keys[1..])
  }

  /**
   * Button presses never take a display of at most twelve characters past
   * twelve: a single-character key is only appended below the limit.
   */
  lemma {:induction false} ButtonsKeepDisplayShort(display: string, keys: seq<string>)
    requires |display| <= MaxDisplayLength
    requires forall k :: 0 <= k < |keys| ==> IsButton(keys[k]) && keys[k] != "="
    ensures |Presses(display, keys)| <= MaxDisplayLength
    decreases keys
  {
    if keys != [] {
      ButtonIsOneCharacter(keys[0]);
      var next := KeyDisplay(display, keys[0]);
      assert |next| <= MaxDisplayLength;
      ButtonsKeepDisplayShort(next, keys[1..]);
    }
  }

  /** Backspace takes back a key that was appended. */
  lemma BackspaceUndoesAppend(display: string, key: string)
    requires |display| < MaxDisplayLength && |key| == 1
    requires key != "C" && key != "=" && key != Backspace
    ensures KeyDisplay(KeyDisplay(display, key), Backspace) == display
  {
    var d := KeyDisplay(display, key);
    assert d == display + key;
  }

  /** The display and history after "=" (or Enter) with the evaluator's answer. */
  datatype Screen = Screen(display: string, history: seq<HistoryItem>)

  /**
   * `calculateResult`: a blank display is cleared and a failed evaluation
   * shows "Error", both leaving the history alone; a successful one shows
   * the formatted result and puts {expression, result} first in a history
   * cut to ten entries.
   */
  function AfterEquals(s: Screen, e: Evaluation, decimals: nat): (r: Screen)
    ensures IsBlank(s.display) ==> r == Screen("", s.history)
    ensures !IsBlank(s.display) && e.Threw? ==> r == Screen("Error", s.history)
    ensures !IsBlank(s.display) && e.Returned? ==>
      && r.display == FormatNumber(e.value, e.shortest, e.exponential, decimals)
      && |r.history| == Min(|s.history| + 1, HistoryCap)
      && r.history[0] == HistoryItem(s.display, r.display)
      && r.history[1..] == s.history[..|r.history| - 1]
  {
    if IsBlank(s.display) then Screen("", s.history)
    else match e
      case Threw => Screen("Error", s.history)
      case Returned(value, shortest, exponential) =>
        var formatted := FormatNumber(value, shortest, exponential, decimals);
        Screen(formatted, History.PrependCapped(HistoryItem(s.display, formatted), s.history, HistoryCap))
  }

  /** The history never holds more than ten entries after an evaluation. */
  lemma {:induction false} HistoryStaysCapped(s: Screen, es: seq<Evaluation>, decimals: nat)
    requires |s.history| <= HistoryCap
    ensures |Evaluations(s, es, decimals).history| <= HistoryCap
    decreases es
  {
    if es != [] {
      HistoryStaysCapped(AfterEquals(s, es[0], decimals), es[1..], decimals);
    }
  }

  /** The screen after pressing "=" once for each evaluator answer in `es`. */
  function Evaluations(s: Screen, es: seq<Evaluation>, decimals: nat): Screen
    decreases es
  {
    if es == [] then s else Evaluations(AfterEquals(s, es[0], decimals), es[1..], decimals)
  }

  class CalculatorPage {
    var display: string
    var history: seq<HistoryItem>
    var showHistory: bool
    /** The chosen number of decimals, one of 0 to 5. */
    var decimals: nat

    /** The page opens with an empty display and history, two decimals, the history shown. */
    constructor ()
      ensures display == "" && history == [] && showHistory && decimals == 2
    {
      display, history, showHistory, decimals := "", [], true, 2;
    }

    /** Typing in the display field replaces its text, with no length limit. */
    method SetDisplay(text: string)
      modifies this`display
      ensures display == text
    {
      display := text;
    }

    /** The decimals picker offers 0 to 5. */
    method SetDecimalPoints(n: nat)
      requires n <= 5
      modifies this`decimals
      ensures decimals == n
    {
      decimals := n;
    }

    method ToggleHistory()
      modifies this`showHistory
      ensures showHistory == !old(showHistory)
    {
      showHistory := !showHistory;
    }

    /**
     * `calculateResult`, on the "=" button or Enter; `e` is what the
     * evaluator made of the current display.
     */
    method CalculateResult(e: Evaluation)
      modifies this`display, this`history
      ensures Screen(display, history) == AfterEquals(Screen(old(display), old(history)), e, decimals)
      ensures old(|history|) <= HistoryCap ==> |history| <= HistoryCap
    {
      if IsBlank(display) {
        display := "";
        return;
      }
      match e {
        case Threw =>
          display := "Error";
        case Returned(value, shortest, exponential) =>
          var formattedResult := FormatNumber(value, shortest, exponential, decimals);
          history := History.PrependCapped(HistoryItem(display, formattedResult), history, HistoryCap);
          display := formattedResult;
      }
    }

    /**
     * `handleInput`: "=" evaluates (with the evaluator's answer `e`), any
     * other key edits the display and leaves the history alone.
     */
    method HandleInput(key: string, e: Evaluation)
      modifies this`display, this`history
      ensures key == "=" ==> Screen(display, history) == AfterEquals(Screen(old(display), old(history)), e, decimals)
      ensures key != "=" ==> display == KeyDisplay(old(display), key) && history == old(history)
    {
      if key == "C" {
        display := "";
      } else if key == "=" {
        CalculateResult(e);
      } else if key == Backspace {
        display := if display == [] then [] else display[..|display| - 1];
      } else if |display| < MaxDisplayLength {
        display := display + key;
      }
    }
  }
}
