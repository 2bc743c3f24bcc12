/**
 * The seeding confirmation of internal/database/seed.go: `CheckEmpty` seeds an empty
 * database at once and asks before overwriting one that has tables. Listing the tables,
 * reading the answer and running the seed script are inputs here, each with its outcome.
 */
module Seed {
  import opened Base
  import opened Text

  /** What `promptOverwrite` prints before reading the answer. */
  const Warning: string :=
    "\nWarning: This database already contains tables.\nSeeding will overwrite certain tables and data.\nDo you want to continue? (y/N): "
  const Cancelled: string := "Seeding cancelled.\n"
  const Seeding: string := "Seeding database with test data...\n"
  const Seeded: string := "Database successfully seeded.\n"
  /** The context a failed read is wrapped in. */
  const ReadContext: string := "Failed to read input: "

  /** The answer test: lower-cased and trimmed, the answer is "yes" or "y". */
  predicate AcceptsOverwrite(answer: string): (b: bool)
    ensures b ==> PaddedYes(answer)
  {
    var res := TrimSpace(ToLower(answer));
    if res == "yes" || res == "y" then
      TrimSpaceSplit(ToLower(answer));
      true
    else false
  }

  /** An independent reading of the same test: once lower-cased, "y" or "yes" with only white space around it. */
  ghost predicate PaddedYes(answer: string)
  {
    exists p: string, q: string :: AllSpace(p) && AllSpace(q) &&
      (ToLower(answer) == p + "y" + q || ToLower(answer) == p + "yes" + q)
  }

  lemma AcceptsIffPadded(answer: string)
    ensures AcceptsOverwrite(answer) <==> PaddedYes(answer)
  {
    var s := ToLower(answer);
    if AcceptsOverwrite(answer) {
      TrimSpaceSplit(s);
      var p, q :| AllSpace(p) && AllSpace(q) && s == p + TrimSpace(s) + q;
      assert s == p + "y" + q || s == p + "yes" + q;
    }
    if PaddedYes(answer) {
      var p: string, q: string :| AllSpace(p) && AllSpace(q) && (s == p + "y" + q || s == p + "yes" + q);
      if s == p + "y" + q {
        TrimSpacePadded(p, "y", q);
      } else {
        TrimSpacePadded(p, "yes", q);
      }
    }
  }

  /** An answer that lowers to a word padded with white space is accepted exactly when the word is "y" or "yes". */
  lemma PaddedAnswer(answer: string, p: string, w: string, q: string)
    requires AllSpace(p) && AllSpace(q) && w != [] && !IsSpace(w[0]) && !IsSpace(w[|w| - 1])
    requires ToLower(answer) == p + w + q
    ensures AcceptsOverwrite(answer) <==> w == "y" || w == "yes"
  {
    TrimSpacePadded(p, w, q);
  }

  /** Upper case, with the line's newline: accepted. */
  lemma AcceptsUpperY()
    ensures AcceptsOverwrite("Y\n")
  {
    assert ToLower("Y\n") == "" + "y" + "\n";
    PaddedAnswer("Y\n", "", "y", "\n");
  }

  /** Spaces around an upper-case word: accepted. */
  lemma AcceptsPaddedYes()
    ensures AcceptsOverwrite("  YES ")
  {
    assert ToLower("  YES ") == "  " + "yes" + " ";
    PaddedAnswer("  YES ", "  ", "yes", " ");
  }

  /** A Windows line ending: accepted. */
  lemma AcceptsYesCrLf()
    ensures AcceptsOverwrite("yes\r\n")
  {
    assert ToLower("yes\r\n") == "" + "yes" + "\r\n";
    PaddedAnswer("yes\r\n", "", "yes", "\r\n");
  }

  /** Case and surrounding white space do not matter, the line's own newline included. */
  lemma AcceptedAnswers()
    ensures AcceptsOverwrite("Y\n") && AcceptsOverwrite("  YES ") && AcceptsOverwrite("yes\r\n")
  {
    AcceptsUpperY();
    AcceptsPaddedYes();
    AcceptsYesCrLf();
  }

  /** Nothing else is a yes: not the empty line, not a no, not a longer word, not spaced-out letters. */
  lemma RejectedAnswers()
    ensures !AcceptsOverwrite("") && !AcceptsOverwrite("n") && !AcceptsOverwrite("yeah") && !AcceptsOverwrite("y e s")
  {
    assert ToLower("") == "";
    assert !AcceptsOverwrite("n") by {
      assert ToLower("n") == "" + "n" + "";
      PaddedAnswer("n", "", "n", "");
    }
    assert !AcceptsOverwrite("yeah") by {
      assert ToLower("yeah") == "" + "yeah" + "";
      PaddedAnswer("yeah", "", "yeah", "");
    }
    assert !AcceptsOverwrite("y e s") by {
      assert ToLower("y e s") == "" + "y e s" + "";
      PaddedAnswer("y e s", "", "y e s", "");
    }
  }

  lemma AnswerExamples()
    ensures AcceptsOverwrite("Y\n") && AcceptsOverwrite("  YES ") && AcceptsOverwrite("yes\r\n")
    ensures !AcceptsOverwrite("") && !AcceptsOverwrite("n") && !AcceptsOverwrite("yeah") && !AcceptsOverwrite("y e s")
  {
    AcceptedAnswers();
    RejectedAnswers();
  }

  /** What reading a line from standard input gave: the line with its newline, or an error. */
  datatype ReadResult = Line(text: string) | ReadFailed(err: Error)

  /** What `promptOverwrite` returns, and what it printed on the way. */
  datatype Prompt = Prompt(accepted: bool, err: Option<Error>, printed: seq<string>)

  /**
   * `promptOverwrite`: the warning, then the answer. A failed read is an error wrapped with
   * "Failed to read input: "; a line that is not a yes prints "Seeding cancelled.".
   */
  function PromptOverwrite(input: ReadResult): (r: Prompt)
    ensures |r.printed| >= 1 && r.printed[0] == Warning
    ensures r.accepted <==> input.Line? && AcceptsOverwrite(input.text)
    ensures r.err.Some? <==> input.ReadFailed?
    ensures input.ReadFailed? ==> r.err == Some(Wrapped(ReadContext, input.err)) && r.printed == [Warning]
    ensures input.ReadFailed? ==> Message(r.err.value) == "Failed to read input: " + Message(input.err)
    ensures input.Line? && !r.accepted ==> r.printed == [Warning, Cancelled]
    ensures r.accepted ==> r.printed == [Warning]
  {
    match input
    case ReadFailed(e) => Prompt(false, Some(Wrapped(ReadContext, e)), [Warning])
    case Line(res) =>
      if !AcceptsOverwrite(res) then Prompt(false, None, [Warning, Cancelled])
      else Prompt(true, None, [Warning])
  }

  /** What `GetTables` gave. */
  datatype Listing = Listed(tables: seq<string>) | ListFailed(err: Error)

  /** What `CheckEmpty` returned, whether it asked and whether it ran the seed script, and what it printed. */
  datatype Outcome = Outcome(err: Option<Error>, prompted: bool, seeded: bool, printed: seq<string>)

  /**
   * `CheckEmpty`, given what listing the tables, reading the answer and running the seed
   * script give (the latter two are used only when reached).
   */
  method CheckEmpty(listed: Listing, answer: ReadResult, seedErr: Option<Error>) returns (o: Outcome)
    ensures listed.ListFailed? ==> o == Outcome(Some(listed.err), false, false, [])
    ensures listed.Listed? && listed.tables == [] ==>
              !o.prompted && o.seeded && o.err == seedErr &&
              o.printed == [Seeding] + (if seedErr.None? then [Seeded] else [])
    ensures listed.Listed? && listed.tables != [] ==>
              o.prompted && |o.printed| >= 1 && o.printed[0] == Warning &&
              (o.seeded <==> answer.Line? && AcceptsOverwrite(answer.text))
    ensures listed.Listed? && listed.tables != [] && answer.ReadFailed? ==>
              o == Outcome(Some(Wrapped(ReadContext, answer.err)), true, false, [Warning])
    ensures listed.Listed? && listed.tables != [] && answer.Line? && !AcceptsOverwrite(answer.text) ==>
              o == Outcome(None, true, false, [Warning, Cancelled])
    ensures listed.Listed? && listed.tables != [] && answer.Line? && AcceptsOverwrite(answer.text) ==>
              o == Outcome(seedErr, true, true, [Warning, Seeding] + (if seedErr.None? then [Seeded] else []))
    ensures o.seeded ==> o.err == seedErr && (Seeded in o.printed <==> seedErr.None?)
  {
    o := Outcome(None, false, false, []);
    if listed.ListFailed? {
      return o.(err := Some(listed.err));
    }
    if |listed.tables| > 0 {
      var p := PromptOverwrite(answer);
      o := o.(prompted := true, printed := o.printed + p.printed);
      if p.err.Some? {
        return o.(err := p.err);
      }
      if !p.accepted {
        return o;
      }
    }
    o := o.(printed := o.printed + [Seeding]);
    o := o.(seeded := true);
    if seedErr.Some? {
      return o.(err := seedErr);
    }
    o := o.(printed := o.printed + [Seeded]);
  }
}
