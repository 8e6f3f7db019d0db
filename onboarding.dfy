/**
 * The onboarding wizard: four steps (0 basics, 1 focus topics, 2 strengths and
 * challenges, 3 review) over a form the user fills in. The checks are pure
 * functions. The component's state (`step`, `form`, `err`, `loading`) is the
 * class `Wizard`, whose methods are the event handlers.
 */
module Onboarding {
  import opened Wrappers
  import opened Text

  // ---------------------------------------------------------------------------
  // The sentence counter: text.split(/[.!?\n]+/g).map(trim).filter(length >= 4).length

  /** A character of the class `[.!?\n]`. */
  predicate IsBreak(c: char)
  {
    c == '.' || c == '!' || c == '?' || c == '\n'
  }

  predicate NoBreak(s: string)
  {
    forall k :: 0 <= k < |s| ==> !IsBreak(s[k])
  }

  predicate AllBreaks(s: string)
  {
    forall k :: 0 <= k < |s| ==> IsBreak(s[k])
  }

  /** The position of the first break character, or `|s|` when there is none. */
  function FirstBreak(s: string): (i: nat)
    ensures i <= |s| && NoBreak(s[..i])
    ensures i < |s| ==> IsBreak(s[i])
  {
    if s == [] || IsBreak(s[0]) then 0
    else
      var i := FirstBreak(s[1..]);
      assert s[..i + 1] == [s[0]] + s[1..][..i];
      i + 1
  }

  /** The end of the run of break characters that starts at `i`: the greedy `+` match. */
  function RunEnd(s: string, i: nat): (j: nat)
    requires i <= |s|
    ensures i <= j <= |s| && AllBreaks(s[i..j])
    ensures j < |s| ==> !IsBreak(s[j])
    decreases |s| - i
  {
    if i < |s| && IsBreak(s[i]) then
      var j := RunEnd(s, i + 1);
      assert s[i..j] == [s[i]] + s[i + 1..j];
      j
    else i
  }

  /**
   * `s.split(/[.!?\n]+/)`: the pieces between maximal runs of break characters.
   * A leading or trailing run yields an empty piece at that end, and `""` gives `[""]`.
   */
  function Split(s: string): (pieces: seq<string>)
    ensures |pieces| >= 1
    ensures forall k :: 0 <= k < |pieces| ==> NoBreak(pieces[k])
    decreases |s|
  {
    var i := FirstBreak(s);
    if i == |s| then
      assert s[..i] == s;
      [s]
    else [s[..i]] + Split(s[RunEnd(s, i)..])
  }

  /** The characters of `s` that are not breaks, in order. */
  function Unbroken(s: string): string
  {
    if s == [] then [] else (if IsBreak(s[0]) then [] else [s[0]]) + Unbroken(s[1..])
  }

  function Concat(pieces: seq<string>): string
  {
    if pieces == [] then [] else pieces[0] + Concat(pieces[1..])
  }

  lemma {:induction false} UnbrokenAppend(a: string, b: string)
    ensures Unbroken(a + b) == Unbroken(a) + Unbroken(b)
  {
    if a == [] {
      assert a + b == b;
    } else {
      assert (a + b)[0] == a[0] && (a + b)[1..] == a[1..] + b;
      UnbrokenAppend(a[1..], b);
    }
  }

  lemma {:induction false} UnbrokenOfNoBreak(s: string)
    requires NoBreak(s)
    ensures Unbroken(s) == s
  {
    if s != [] { UnbrokenOfNoBreak(s[1..]); }
  }

  lemma {:induction false} UnbrokenOfBreaks(s: string)
    requires AllBreaks(s)
    ensures Unbroken(s) == []
  {
    if s != [] { UnbrokenOfBreaks(s[1..]); }
  }

  /** A break-free head followed by a run of breaks contributes just the head. */
  lemma UnbrokenSkipsRun(head: string, run: string, rest: string)
    requires NoBreak(head) && AllBreaks(run)
    ensures Unbroken(head + run + rest) == head + Unbroken(rest)
  {
    UnbrokenAppend(head, run);
    UnbrokenOfNoBreak(head);
    UnbrokenOfBreaks(run);
    assert Unbroken(head + run) == head;
    UnbrokenAppend(head + run, rest);
  }

  /** Splitting loses exactly the break characters: the pieces put together are the rest of the text, in order. */
  lemma {:induction false} SplitKeepsText(s: string)
    ensures Concat(Split(s)) == Unbroken(s)
    decreases |s|
  {
    var i := FirstBreak(s);
    if i == |s| {
      assert s[..i] == s;
      UnbrokenOfNoBreak(s);
    } else {
      var j := RunEnd(s, i);
      var head, run, rest := s[..i], s[i..j], s[j..];
      assert s == head + run + rest;
      UnbrokenSkipsRun(head, run, rest);
      SplitKeepsText(rest);
      assert Split(s) == [head] + Split(rest);
      assert ([head] + Split(rest))[1..] == Split(rest);
    }
  }

  /** The first break of `s` is at `n` when `s[..n]` has none and `s[n]` is one. */
  lemma {:induction false} FirstBreakAt(s: string, n: nat)
    requires n < |s| && NoBreak(s[..n]) && IsBreak(s[n])
    ensures FirstBreak(s) == n
  {
    if n > 0 {
      assert s[..n][0] == s[0];
      assert s[1..][..n - 1] == s[..n][1..];
      FirstBreakAt(s[1..], n - 1);
    }
  }

  /** The run of breaks from `i` ends at `j` when `s[i..j]` is all breaks and `s[j]` is not one. */
  lemma {:induction false} RunEndAt(s: string, i: nat, j: nat)
    requires i <= j <= |s| && AllBreaks(s[i..j]) && (j == |s| || !IsBreak(s[j]))
    ensures RunEnd(s, i) == j
    decreases j - i
  {
    if i < j {
      assert s[i..j][0] == s[i];
      assert s[i + 1..j] == s[i..j][1..];
      RunEndAt(s, i + 1, j);
    }
  }

  /**
   * The split cuts exactly at each maximal run of breaks: a break-free head, a
   * non-empty run, and a rest that does not start with a break give the head
   * followed by the pieces of the rest.
   */
  lemma SplitAtRun(head: string, run: string, rest: string)
    requires NoBreak(head) && run != [] && AllBreaks(run)
    requires rest == [] || !IsBreak(rest[0])
    ensures Split(head + run + rest) == [head] + Split(rest)
  {
    var s := head + run + rest;
    assert s[..|head|] == head;
    assert s[|head|] == run[0];
    FirstBreakAt(s, |head|);
    assert s[|head|..|head| + |run|] == run;
    assert |head| + |run| < |s| ==> s[|head| + |run|] == rest[0];
    RunEndAt(s, |head|, |head| + |run|);
    assert s[|head| + |run|..] == rest;
  }

  /** The trimmed pieces that count as sentences: at least four UTF-16 code units long. */
  function KeepSentences(pieces: seq<string>): (r: seq<string>)
    ensures |r| <= |pieces|
    ensures forall k :: 0 <= k < |r| ==> IsTrimmed(r[k]) && Utf16Length(r[k]) >= 4
  {
    if pieces == [] then []
    else
      var t := Trim(pieces[0]);
      (if Utf16Length(t) >= 4 then [t] else []) + KeepSentences(pieces[1..])
  }

  /** One piece is kept, trimmed, exactly when its trimmed form has four code units or more. */
  lemma KeepOne(p: string)
    ensures KeepSentences([p]) == if Utf16Length(Trim(p)) >= 4 then [Trim(p)] else []
  {
    assert [p][1..] == [];
  }

  /** The filter works piece by piece, so it keeps every qualifying piece, in order. */
  lemma {:induction false} KeepSentencesAppend(a: seq<string>, b: seq<string>)
    ensures KeepSentences(a + b) == KeepSentences(a) + KeepSentences(b)
  {
    if a == [] {
      assert a + b == b;
    } else {
      assert (a + b)[0] == a[0] && (a + b)[1..] == a[1..] + b;
      KeepSentencesAppend(a[1..], b);
    }
  }

  /** `countSentences(text)`. */
  function CountSentences(text: string): (n: nat)
    ensures n <= |Split(text)|
  {
    |KeepSentences(Split(text))|
  }

  /**
   * Every text without a break is one piece; every other text is a break-free
   * head, a maximal run of breaks and a rest. The head counts once exactly when
   * its trimmed form has at least four code units.
   */
  lemma CountAtRun(head: string, run: string, rest: string)
    requires NoBreak(head) && run != [] && AllBreaks(run)
    requires rest == [] || !IsBreak(rest[0])
    ensures CountSentences(head + run + rest) == (if Utf16Length(Trim(head)) >= 4 then 1 else 0) + CountSentences(rest)
  {
    SplitAtRun(head, run, rest);
    KeepSentencesAppend([head], Split(rest));
    KeepOne(head);
  }

  /** The empty text has no sentence. */
  lemma EmptyHasNoSentence()
    ensures CountSentences("") == 0
  {
    assert Split("") == [""];
  }

  /** Text without a break character is one piece: one sentence if it trims to four code units or more, else none. */
  lemma NoBreakAtMostOneSentence(text: string)
    requires NoBreak(text)
    ensures Split(text) == [text]
    ensures CountSentences(text) == if Utf16Length(Trim(text)) >= 4 then 1 else 0
  {
    assert text[..|text|] == text;
    KeepOne(text);
  }

  // ---------------------------------------------------------------------------
  // The form and its checks

  datatype Form = Form(
    fullName: string,
    role: string,
    experience: string,
    focus: seq<string>,
    strengths: string,
    challenges: string)

  const EmptyForm := Form("", "", "", [], "", "")

  /** `basicsValid`: name, role and experience are all non-empty (untrimmed). */
  predicate BasicsValid(f: Form)
  {
    f.fullName != "" && f.role != "" && f.experience != ""
  }

  /** `focusValid`: at least one focus topic. */
  predicate FocusValid(f: Form)
  {
    |f.focus| > 0
  }

  /** `strengthsValid` / `challengesValid`: 40 code units once trimmed, and two sentences. */
  predicate DescriptionValid(text: string)
  {
    Utf16Length(Trim(text)) >= 40 && CountSentences(text) >= 2
  }

  /** Trimming never makes a string longer in code units. */
  lemma TrimNoLonger(text: string)
    ensures Utf16Length(Trim(text)) <= Utf16Length(text)
  {
    var i := TrimSpan(text);
    var t := Trim(text);
    var pre, post := text[..i], text[i + |t|..];
    assert text == pre + t + post;
    Utf16LengthAppend(pre + t, post);
    Utf16LengthAppend(pre, t);
  }

  /** A valid description is at least 40 code units long and contains a break character. */
  lemma DescriptionValidNeeds(text: string)
    requires DescriptionValid(text)
    ensures Utf16Length(text) >= 40
    ensures !NoBreak(text)
  {
    TrimNoLonger(text);
    if NoBreak(text) { NoBreakAtMostOneSentence(text); }
  }

  const BasicsMessage := "Fill name, role, and experience."
  const FocusMessage := "Pick at least one focus area."
  const StrengthsMessage := "Add 2–3 sentences about your strengths (≥ ~40 chars)."
  const ChallengesMessage := "Add 2–3 sentences about your challenges (≥ ~40 chars)."

  /** Whether `next` may leave `step`: step 3 has no check. */
  predicate StepPasses(step: int, f: Form)
  {
    if step == 0 then BasicsValid(f)
    else if step == 1 then FocusValid(f)
    else if step == 2 then DescriptionValid(f.strengths) && DescriptionValid(f.challenges)
    else true
  }

  /** The messages `next` collects at `step`, in the order it pushes them. */
  function StepErrors(step: int, f: Form): (errs: seq<string>)
    ensures errs == [] <==> StepPasses(step, f)
    ensures step == 0 && !BasicsValid(f) ==> errs == [BasicsMessage]
    ensures step == 1 && !FocusValid(f) ==> errs == [FocusMessage]
    ensures StrengthsMessage in errs <==> step == 2 && !DescriptionValid(f.strengths)
    ensures ChallengesMessage in errs <==> step == 2 && !DescriptionValid(f.challenges)
    ensures step == 2 ==>
      |errs| == (if DescriptionValid(f.strengths) then 0 else 1) + (if DescriptionValid(f.challenges) then 0 else 1)
    ensures step == 2 && !DescriptionValid(f.strengths) ==> errs[0] == StrengthsMessage
    ensures step == 2 && !DescriptionValid(f.challenges) ==> errs[|errs| - 1] == ChallengesMessage
    ensures step !in {0, 1, 2} ==> errs == []
  {
    (if step == 0 && !BasicsValid(f) then [BasicsMessage] else []) +
    (if step == 1 && !FocusValid(f) then [FocusMessage] else []) +
    (if step == 2 && !DescriptionValid(f.strengths) then [StrengthsMessage] else []) +
    (if step == 2 && !DescriptionValid(f.challenges) then [ChallengesMessage] else [])
  }

  /** When both descriptions fail, `next` shows the strengths message, a space, then the challenges message. */
  lemma BothDescriptionsFail(f: Form)
    requires !DescriptionValid(f.strengths) && !DescriptionValid(f.challenges)
    ensures Join(StepErrors(2, f), " ") == StrengthsMessage + " " + ChallengesMessage
  {
    assert StepErrors(2, f) == [StrengthsMessage] + [ChallengesMessage];
    JoinAppend([StrengthsMessage], ChallengesMessage, " ");
  }

  /** The text inputs that `bind` connects to the form. */
  datatype TextField = FullName | Role | Experience | Strengths | Challenges

  function FieldValue(f: Form, field: TextField): string
  {
    match field
    case FullName => f.fullName
    case Role => f.role
    case Experience => f.experience
    case Strengths => f.strengths
    case Challenges => f.challenges
  }

  /** `{ ...f, [key]: value }`. */
  function WithField(f: Form, field: TextField, value: string): (g: Form)
    ensures g.focus == f.focus
  {
    match field
    case FullName => f.(fullName := value)
    case Role => f.(role := value)
    case Experience => f.(experience := value)
    case Strengths => f.(strengths := value)
    case Challenges => f.(challenges := value)
  }

  /** An edit changes the named field to the new value and no other field. */
  lemma WithFieldOnly(f: Form, field: TextField, value: string, other: TextField)
    ensures FieldValue(WithField(f, field, value), other) == if other == field then value else FieldValue(f, other)
    ensures WithField(f, field, value).focus == f.focus
  {
  }

  /** `s.filter(x => x !== topic)`. */
  function RemoveAll(s: seq<string>, topic: string): (r: seq<string>)
    ensures topic !in r
    ensures |r| <= |s|
    ensures forall y :: y != topic ==> multiset(r)[y] == multiset(s)[y]
  {
    if s == [] then []
    else
      var rest := RemoveAll(s[1..], topic);
      assert s == [s[0]] + s[1..];
      if s[0] == topic then rest else [s[0]] + rest
  }

  /** Filtering is done element by element, so it keeps the relative order of what it keeps. */
  lemma {:induction false} RemoveAllAppend(a: seq<string>, b: seq<string>, topic: string)
    ensures RemoveAll(a + b, topic) == RemoveAll(a, topic) + RemoveAll(b, topic)
  {
    if a == [] {
      assert a + b == b;
    } else {
      assert (a + b)[0] == a[0] && (a + b)[1..] == a[1..] + b;
      RemoveAllAppend(a[1..], b, topic);
    }
  }

  lemma {:induction false} RemoveAllAbsent(s: seq<string>, topic: string)
    requires topic !in s
    ensures RemoveAll(s, topic) == s
  {
    if s != [] { RemoveAllAbsent(s[1..], topic); }
  }

  /** The focus list after `toggleFocus(topic)`: every copy removed if present, else appended. */
  function Toggled(focus: seq<string>, topic: string): (r: seq<string>)
    ensures topic in focus ==> topic !in r && forall y :: y != topic ==> multiset(r)[y] == multiset(focus)[y]
    ensures topic !in focus ==> |r| == |focus| + 1 && r[..|focus|] == focus && r[|focus|] == topic
  {
    if topic in focus then RemoveAll(focus, topic) else focus + [topic]
  }

  /** Toggling an absent topic twice gives back the original list. */
  lemma ToggleTwice(focus: seq<string>, topic: string)
    requires topic !in focus
    ensures Toggled(Toggled(focus, topic), topic) == focus
  {
    RemoveAllAppend(focus, [topic], topic);
    RemoveAllAbsent(focus, topic);
  }

  // ---------------------------------------------------------------------------
  // Submitting

  /** The update sent to the `profiles` row of the signed-in user. */
  datatype ProfileUpdate = ProfileUpdate(
    fullName: string,
    targetRole: string,
    experienceLevel: string,
    focusTopics: seq<string>,
    strengths: string,
    challenges: string,
    onboarded: bool)

  /** The payload `submit` builds: free text trimmed, choices copied, and the row marked onboarded. */
  function Payload(f: Form): (p: ProfileUpdate)
    ensures p.targetRole == f.role && p.experienceLevel == f.experience && p.focusTopics == f.focus
    ensures p.onboarded
    ensures p.fullName == Trim(f.fullName) && p.strengths == Trim(f.strengths) && p.challenges == Trim(f.challenges)
    ensures IsTrimmed(p.fullName) && IsTrimmed(p.strengths) && IsTrimmed(p.challenges)
  {
    ProfileUpdate(Trim(f.fullName), f.role, f.experience, f.focus, Trim(f.strengths), Trim(f.challenges), true)
  }

  /** The awaited `auth.getUser()`: it throws, or reports an error flag and maybe a user id. */
  datatype UserLookup = LookupThrew | LookupDone(failed: bool, user: Option<string>)

  /** The awaited profile update: it throws, or reports an error message or none. */
  datatype UpdateOutcome = UpdateThrew | UpdateDone(error: Option<string>)

  const NotLoggedInMessage := "You are not logged in."
  const SomethingWrongMessage := "Something went wrong. Please try again."

  class Wizard {
    var step: int
    var form: Form
    var err: Option<string>
    var loading: bool

    /** The wizard never leaves its four steps. */
    ghost predicate Valid()
      reads this
    {
      0 <= step <= 3
    }

    /** The initial state, over the saved draft if there is one, else the empty form. */
    constructor (draft: Option<Form>)
      ensures Valid()
      ensures step == 0 && err == None && !loading
      ensures form == if draft.Some? then draft.value else EmptyForm
    {
      step := 0;
      form := if draft.Some? then draft.value else EmptyForm;
      err := None;
      loading := false;
    }

    /** `next`: check the current step; report every failing check, or clear the error and move on (at most to 3). */
    method Next()
      requires Valid()
      modifies this
      ensures Valid()
      ensures form == old(form) && loading == old(loading)
      ensures !StepPasses(old(step), old(form)) ==>
        step == old(step) && err == Some(Join(StepErrors(old(step), old(form)), " "))
      ensures StepPasses(old(step), old(form)) ==>
        err == None && step == (if old(step) < 3 then old(step) + 1 else 3)
    {
      var errors: seq<string> := [];
      if step == 0 && !BasicsValid(form) { errors := errors + [BasicsMessage]; }
      if step == 1 && !FocusValid(form) { errors := errors + [FocusMessage]; }
      if step == 2 {
        if !DescriptionValid(form.strengths) { errors := errors + [StrengthsMessage]; }
        if !DescriptionValid(form.challenges) { errors := errors + [ChallengesMessage]; }
      }
      if |errors| > 0 {
        err := Some(Join(errors, " "));
        return;
      }
      err := None;
      step := if step + 1 < 3 then step + 1 else 3;
    }

    /** `back`: clear the error and go back one step, staying at 0. */
    method Back()
      requires Valid()
      modifies this
      ensures Valid()
      ensures form == old(form) && loading == old(loading) && err == None
      ensures step == (if old(step) > 0 then old(step) - 1 else 0)
    {
      err := None;
      step := if step - 1 > 0 then step - 1 else 0;
    }

    /** An edit of one text input: that field takes the new value and the error is cleared. */
    method Bind(field: TextField, value: string)
      requires Valid()
      modifies this
      ensures Valid()
      ensures form == WithField(old(form), field, value)
      ensures step == old(step) && loading == old(loading) && err == None
    {
      form := WithField(form, field, value);
      err := None;
    }

    /** `toggleFocus(topic)`: drop the topic if chosen, else add it last; the error is cleared. */
    method ToggleFocus(topic: string)
      requires Valid()
      modifies this
      ensures Valid()
      ensures form == old(form).(focus := Toggled(old(form.focus), topic))
      ensures step == old(step) && loading == old(loading) && err == None
    {
      var active := topic in form.focus;
      var next := if active then RemoveAll(form.focus, topic) else form.focus + [topic];
      form := form.(focus := next);
      err := None;
    }

    /**
     * `submit`: look up the signed-in user, update that user's profile row with
     * the payload, and on success go to the dashboard (the returned route).
     * Whatever happens, `loading` ends false.
     */
    method Submit(lookup: UserLookup, update: (string, ProfileUpdate) -> UpdateOutcome) returns (route: Option<string>)
      requires Valid()
      modifies this
      ensures Valid()
      ensures step == old(step) && form == old(form) && !loading
      ensures lookup.LookupThrew? ==> route == None && err == Some(SomethingWrongMessage)
      ensures lookup.LookupDone? && (lookup.failed || lookup.user.None?) ==> route == None && err == Some(NotLoggedInMessage)
      ensures lookup.LookupDone? && !lookup.failed && lookup.user.Some? ==>
        var outcome := update(lookup.user.value, Payload(old(form)));
        && (outcome.UpdateThrew? ==> route == None && err == Some(SomethingWrongMessage))
        && (outcome.UpdateDone? && outcome.error.Some? ==> route == None && err == outcome.error)
        && (outcome == UpdateDone(None) ==> route == Some("/dashboard") && err == None)
    {
      err := None;
      loading := true;
      route := None;
      match lookup {
        case LookupThrew =>
          err := Some(SomethingWrongMessage);
        case LookupDone(failed, user) =>
          if failed || user.None? {
            err := Some(NotLoggedInMessage);
          } else {
            var outcome := update(user.value, Payload(form));
            match outcome {
              case UpdateThrew =>
                err := Some(SomethingWrongMessage);
              case UpdateDone(error) =>
                if error.Some? {
                  err := error;
                } else {
                  route := Some("/dashboard");
                }
            }
          }
      }
      loading := false;
    }
  }
}
