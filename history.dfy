/**
 * The command-line input history of HistoryTextField.swift: a most-recent-
 * first list of committed commands, bounded by `maxHistory`, and a cursor
 * that the up and down keys move through it.  The text field's drawing,
 * key codes and the deferred caret move are left out; the field's text is
 * `stringValue` and the `executeCommand` callback is a log of the
 * commands it was called with.
 */
module InputHistory {

  // ---------------------------------------------------------------------------
  // The history list
  // ---------------------------------------------------------------------------

  /** The command `commitHistory` runs: the typed text, or the latest entry when nothing was typed. */
  function Replayed(input: string, history: seq<string>): (r: string)
    ensures input != [] ==> r == input
    ensures input == [] ==> (r == [] <==> (history == [] || history[0] == []))
  {
    if |input| == 0 then (if history == [] then "" else history[0]) else input
  }

  /** The list cut back to `maxHistory` by dropping its oldest entry. */
  function Bounded(h: seq<string>, maxHistory: int): seq<string>
    requires h != []
  {
    if |h| > maxHistory then h[..|h| - 1] else h
  }

  /**
   * The history after `value` is committed: unchanged when the value is
   * shorter than `minCharacterLength` or repeats the latest entry,
   * otherwise the value in front and the oldest entry dropped when the
   * list outgrows `maxHistory`.
   */
  function Recorded(value: string, history: seq<string>, minLength: int, maxHistory: int): seq<string> {
    if |value| < minLength || (history != [] && value == history[0]) then history
    else Bounded([value] + history, maxHistory)
  }

  /** No two neighbouring entries are the same command. */
  predicate NoRepeats(h: seq<string>) {
    forall i :: 0 < i < |h| ==> h[i] != h[i - 1]
  }

  /** Every entry is at least `minLength` characters long. */
  predicate LongEnough(h: seq<string>, minLength: int) {
    forall i :: 0 <= i < |h| ==> |h[i]| >= minLength
  }

  /** A list within its bound stays within it. */
  lemma RecordedBounded(value: string, history: seq<string>, minLength: int, maxHistory: int)
    requires |history| <= maxHistory
    ensures |Recorded(value, history, minLength, maxHistory)| <= maxHistory
  {
  }

  /**
   * Either the history is unchanged, or the value is now its latest entry
   * and all older entries follow in order, except perhaps the oldest.  It
   * changes exactly when the value is long enough and is not the latest
   * entry (and, for an empty history, when there is room for one entry).
   */
  lemma RecordedShape(value: string, history: seq<string>, minLength: int, maxHistory: int)
    ensures var r := Recorded(value, history, minLength, maxHistory);
            r == history || (r != [] && r[0] == value && r[1..] <= history && |r| >= |history|)
    ensures var r := Recorded(value, history, minLength, maxHistory);
            r != history <==>
              |value| >= minLength && (if history == [] then maxHistory >= 1 else value != history[0])
  {
    var h := [value] + history;
    var r := Recorded(value, history, minLength, maxHistory);
    if r != history {
      assert h[1..] == history;
      assert r == h || r == h[..|h| - 1];
      if r == h[..|h| - 1] {
        assert r[1..] == history[..|history| - 1];
      }
    }
  }

  /** Committing never puts the same command twice in a row. */
  lemma RecordedNoRepeats(value: string, history: seq<string>, minLength: int, maxHistory: int)
    requires NoRepeats(history)
    ensures NoRepeats(Recorded(value, history, minLength, maxHistory))
  {
    var r := Recorded(value, history, minLength, maxHistory);
    if r != history {
      var h := [value] + history;
      assert NoRepeats(h) by {
        forall i | 0 < i < |h| ensures h[i] != h[i - 1] {
          if i > 1 {
            assert h[i] == history[i - 1] && h[i - 1] == history[i - 2];
          }
        }
      }
      assert r == h || r == h[..|h| - 1];
    }
  }

  /** Every recorded command is at least `minCharacterLength` long. */
  lemma RecordedLongEnough(value: string, history: seq<string>, minLength: int, maxHistory: int)
    requires LongEnough(history, minLength)
    ensures LongEnough(Recorded(value, history, minLength, maxHistory), minLength)
  {
    var r := Recorded(value, history, minLength, maxHistory);
    if r != history {
      var h := [value] + history;
      assert LongEnough(h, minLength) by {
        forall i | 0 <= i < |h| ensures |h[i]| >= minLength {
          if i > 0 {
            assert h[i] == history[i - 1];
          }
        }
      }
      assert r == h || r == h[..|h| - 1];
    }
  }

  /** Replaying the latest command (committing an empty field) leaves the history as it is. */
  lemma ReplayKeepsHistory(history: seq<string>, minLength: int, maxHistory: int)
    requires history != []
    ensures Replayed("", history) == history[0]
    ensures Recorded(Replayed("", history), history, minLength, maxHistory) == history
  {
  }

  // ---------------------------------------------------------------------------
  // The cursor
  // ---------------------------------------------------------------------------

  /** Where the cursor sits: -1 for the empty field, otherwise an entry of the history. */
  predicate InRange(index: int, count: int) {
    -1 <= index < count
  }

  /** The index `previous()` (the up key) moves to: one older entry, back to the empty field past the oldest. */
  function PreviousIndex(index: int, count: int): int {
    var i := index + 1;
    if i > -1 && i >= count then -1 else i
  }

  /** The index `next()` (the down key) moves to: one newer entry, from the empty field to the oldest. */
  function NextIndex(index: int, count: int): int {
    var i := (if index == -1 then count else index) - 1;
    if i > -1 && index == 0 then -1 else i
  }

  /** The `lastIndex == 0` test of `next()` never decides anything: the down key just steps back one. */
  lemma NextSimplyDecrements(index: int, count: int)
    requires InRange(index, count)
    ensures NextIndex(index, count) == (if index == -1 then count else index) - 1
  {
  }

  /** The text shown for a cursor position. */
  function Shown(index: int, history: seq<string>): string
    requires InRange(index, |history|)
  {
    if index == -1 then "" else history[index]
  }

  /** Both keys keep the cursor in range. */
  lemma MovesStayInRange(index: int, count: int)
    requires InRange(index, count)
    ensures InRange(PreviousIndex(index, count), count)
    ensures InRange(NextIndex(index, count), count)
  {
  }

  /**
   * The up and down keys undo each other: the positions -1, 0, ...,
   * count - 1 form one cycle that `previous()` walks one way and `next()`
   * the other.
   */
  lemma NextUndoesPrevious(index: int, count: int)
    requires InRange(index, count)
    ensures NextIndex(PreviousIndex(index, count), count) == index
    ensures PreviousIndex(NextIndex(index, count), count) == index
  {
  }

  /** From the empty field the up key shows the latest entry and the down key the oldest. */
  lemma FromEmptyField(history: seq<string>)
    requires history != []
    ensures PreviousIndex(-1, |history|) == 0 && Shown(0, history) == history[0]
    ensures NextIndex(-1, |history|) == |history| - 1 && Shown(|history| - 1, history) == history[|history| - 1]
  {
  }

  /** With no history both keys leave the empty field where it is. */
  lemma EmptyHistoryStays(index: int)
    requires InRange(index, 0)
    ensures PreviousIndex(index, 0) == -1 && NextIndex(index, 0) == -1
  {
  }

  // ---------------------------------------------------------------------------
  // The text field
  // ---------------------------------------------------------------------------

  class HistoryField {
    var currentHistoryIndex: int
    var history: seq<string>
    var maxHistory: int
    var minCharacterLength: int
    /** The text in the field. */
    var stringValue: string
    /** The commands `executeCommand` has been called with, oldest first. */
    var executed: seq<string>

    /** The cursor is on an entry or on the empty field. */
    predicate Valid()
      reads this
    {
      InRange(currentHistoryIndex, |history|)
    }

    constructor ()
      ensures Valid()
      ensures currentHistoryIndex == -1 && history == [] && stringValue == [] && executed == []
      ensures maxHistory == 30 && minCharacterLength == 3
    {
      currentHistoryIndex := -1;
      history := [];
      maxHistory := 30;
      minCharacterLength := 3;
      stringValue := "";
      executed := [];
    }

    /**
     * `commitHistory`: runs the typed command (or replays the latest one),
     * clears the field, puts the cursor back on it and records the
     * command.
     */
    method CommitHistory()
      modifies this
      ensures Valid()
      ensures currentHistoryIndex == -1 && stringValue == []
      ensures maxHistory == old(maxHistory) && minCharacterLength == old(minCharacterLength)
      ensures var value := Replayed(old(stringValue), old(history));
              && executed == old(executed) + (if |value| > 0 then [value] else [])
              && history == Recorded(value, old(history), minCharacterLength, maxHistory)
    ensures |old(history)| <= maxHistory ==> |history| <= maxHistory
    {
      currentHistoryIndex := -1;

      var value := stringValue;
      stringValue := "";

      if |value| == 0 {
        value := if history == [] then "" else history[0];
      }

      if |value| > 0 {
        executed := executed + [value];
      }

      if |value| < minCharacterLength || (history != [] && value == history[0]) {
        return;
      }

      history := [value] + history;

      if |history| > maxHistory {
        history := history[..|history| - 1];
      }
    }

    /** `previous()`, the up key: one entry older, shown in the field. */
    method Previous()
      requires Valid()
      modifies this
      ensures Valid()
      ensures currentHistoryIndex == PreviousIndex(old(currentHistoryIndex), |history|)
      ensures stringValue == Shown(currentHistoryIndex, history)
      ensures history == old(history) && executed == old(executed)
      ensures maxHistory == old(maxHistory) && minCharacterLength == old(minCharacterLength)
    {
      var value := "";

      currentHistoryIndex := currentHistoryIndex + 1;

      if currentHistoryIndex > -1 {
        if currentHistoryIndex >= |history| {
          currentHistoryIndex := -1;
        } else {
          value := history[currentHistoryIndex];
        }
      }

      stringValue := value;
    }

    /** `next()`, the down key: one entry newer, shown in the field. */
    method Next()
      requires Valid()
      modifies this
      ensures Valid()
      ensures currentHistoryIndex == NextIndex(old(currentHistoryIndex), |history|)
      ensures stringValue == Shown(currentHistoryIndex, history)
      ensures history == old(history) && executed == old(executed)
      ensures maxHistory == old(maxHistory) && minCharacterLength == old(minCharacterLength)
    {
      var value := "";
      var lastIndex := currentHistoryIndex;

      if lastIndex == -1 {
        currentHistoryIndex := |history|;
      }

      currentHistoryIndex := currentHistoryIndex - 1;

      if currentHistoryIndex > -1 {
        if lastIndex == 0 {
          // Unreachable: from 0 the decrement has already reached -1.
          assert false;
        } else {
          value := history[currentHistoryIndex];
        }
      }

      stringValue := value;
    }
  }
}
