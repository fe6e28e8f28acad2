/**
 * The claim form (src/components/claim-form.tsx): the claim text, the chosen
 * verticals (one checkbox per tag, 'Finance' ticked at first), dictation that
 * appends what the speech recogniser finalises, and the submit guard.
 */
module ClaimForm {
  import opened Types
  import Text
  import Actions

  /** `prev.filter(v => v !== vertical)`. */
  function Without(selected: seq<Vertical>, v: Vertical): (r: seq<Vertical>)
    ensures |r| <= |selected|
    ensures forall w :: w in r <==> w in selected && w != v
  {
    if selected == [] then []
    else if selected[0] == v then Without(selected[1..], v)
    else [selected[0]] + Without(selected[1..], v)
  }

  /** `handleVerticalChange`: a ticked tag is removed, an unticked one appended. */
  function Toggled(selected: seq<Vertical>, v: Vertical): (r: seq<Vertical>)
    ensures v in r <==> v !in selected
    ensures forall w :: w != v ==> (w in r <==> w in selected)
    ensures v !in selected ==> r == selected + [v]
    ensures NoDuplicates(selected) ==>
      forall i :: 0 <= i < |selected| && selected[i] == v ==> r == selected[..i] + selected[i + 1..]
  {
    if v in selected then
      (forall i | 0 <= i < |selected| && NoDuplicates(selected) && selected[i] == v
         ensures Without(selected, v) == selected[..i] + selected[i + 1..]
       { WithoutRemovesAt(selected, i); }
       Without(selected, v))
    else selected + [v]
  }

  /** No tag listed twice. */
  predicate NoDuplicates(s: seq<Vertical>)
  {
    forall i, j :: 0 <= i < j < |s| ==> s[i] != s[j]
  }

  /** Filtering out one tag keeps the rest free of repeats. */
  lemma {:induction false} WithoutKeepsNoDuplicates(s: seq<Vertical>, v: Vertical)
    requires NoDuplicates(s)
    ensures NoDuplicates(Without(s, v))
    decreases |s|
  {
    if s != [] {
      WithoutKeepsNoDuplicates(s[1..], v);
      var rest := Without(s[1..], v);
      assert s[0] !in s[1..] by {
        forall k | 0 <= k < |s[1..]| ensures s[1..][k] != s[0] {
          assert s[1..][k] == s[k + 1];
        }
      }
      assert s[0] !in rest;
    }
  }

  /** Toggling keeps the selection free of repeats. */
  lemma ToggleKeepsNoDuplicates(s: seq<Vertical>, v: Vertical)
    requires NoDuplicates(s)
    ensures NoDuplicates(Toggled(s, v))
  {
    if v in s {
      WithoutKeepsNoDuplicates(s, v);
    }
  }

  /** Filtering out a tag that is not there changes nothing. */
  lemma {:induction false} WithoutAbsent(s: seq<Vertical>, v: Vertical)
    requires v !in s
    ensures Without(s, v) == s
    decreases |s|
  {
    if s != [] {
      assert v !in s[1..];
      WithoutAbsent(s[1..], v);
    }
  }

  /** Filtering a list whose last element is the tag drops just that element. */
  lemma {:induction false} WithoutAppended(s: seq<Vertical>, v: Vertical)
    requires v !in s
    ensures Without(s + [v], v) == s
    decreases |s|
  {
    if s == [] {
      assert [] + [v] == [v];
    } else {
      assert (s + [v])[1..] == s[1..] + [v];
      assert v !in s[1..];
      WithoutAppended(s[1..], v);
    }
  }

  /** Filtering splits over concatenation, so the kept tags stay in their order. */
  lemma {:induction false} WithoutDistributes(a: seq<Vertical>, b: seq<Vertical>, v: Vertical)
    ensures Without(a + b, v) == Without(a, v) + Without(b, v)
    decreases |a|
  {
    if a == [] {
      assert a + b == b;
    } else {
      assert (a + b)[1..] == a[1..] + b;
      WithoutDistributes(a[1..], b, v);
    }
  }

  /** In a selection without repeats, filtering out the tag at `i` removes just that position. */
  lemma WithoutRemovesAt(s: seq<Vertical>, i: int)
    requires NoDuplicates(s) && 0 <= i < |s|
    ensures Without(s, s[i]) == s[..i] + s[i + 1..]
  {
    NotBeforeNorAfter(s, i);
    WithoutAround(s[..i], s[i], s[i + 1..]);
    assert s == s[..i] + [s[i]] + s[i + 1..];
  }

  /** Filtering out a tag that occurs once, between two runs without it, joins the runs. */
  lemma WithoutAround(before: seq<Vertical>, v: Vertical, after: seq<Vertical>)
    requires v !in before && v !in after
    ensures Without(before + [v] + after, v) == before + after
  {
    var front := before + [v];
    WithoutDistributes(front, after, v);
    WithoutDistributes(before, [v], v);
    WithoutOnly(v);
    WithoutAbsent(before, v);
    WithoutAbsent(after, v);
    assert Without(front, v) == before;
  }

  /** Filtering a tag out of the one-element selection of it leaves nothing. */
  lemma WithoutOnly(v: Vertical)
    ensures Without([v], v) == []
  {
    assert [v][1..] == [];
  }

  /** In a selection without repeats, the tag at `i` occurs neither before nor after `i`. */
  lemma NotBeforeNorAfter(s: seq<Vertical>, i: int)
    requires NoDuplicates(s) && 0 <= i < |s|
    ensures s[i] !in s[..i] && s[i] !in s[i + 1..]
  {
    var before, after := s[..i], s[i + 1..];
    forall k | 0 <= k < |before| ensures before[k] != s[i] {
      assert before[k] == s[k];
    }
    forall k | 0 <= k < |after| ensures after[k] != s[i] {
      assert after[k] == s[i + 1 + k];
    }
  }

  /** Ticking and then unticking a tag restores the selection exactly. */
  lemma ToggleTwiceRestores(s: seq<Vertical>, v: Vertical)
    requires v !in s
    ensures Toggled(Toggled(s, v), v) == s
  {
    WithoutAppended(s, v);
  }

  /**
   * `handleSubmit`: submit only when the trimmed claim is nonempty and some
   * tag is chosen; the claim goes out untrimmed.
   */
  function SubmitGuard(claim: string, selected: seq<Vertical>): (r: Option<ClaimInput>)
    ensures r.Some? <==> !Text.Blank(claim) && |selected| > 0
    ensures r.Some? ==> r.value.claim == claim && r.value.verticals == selected
  {
    if Text.Trim(claim) != [] && |selected| > 0 then Some(ClaimInput(claim, selected)) else None
  }

  /** Whatever the form submits passes the server actions' own guard. */
  lemma FormSubmissionPassesServerGuard(claim: string, selected: seq<Vertical>)
    requires SubmitGuard(claim, selected).Some?
    ensures Actions.AcceptsClaim(SubmitGuard(claim, selected).value)
  {
  }

  /** The server guard is weaker: a claim of spaces passes it but not the form. */
  lemma ServerGuardAcceptsBlankClaim()
    ensures Actions.AcceptsClaim(ClaimInput(" ", [Finance]))
    ensures SubmitGuard(" ", [Finance]).None?
  {
    assert Text.Blank(" ") by {
      assert Text.IsSpace(" "[0]);
    }
  }

  /** The form's state. */
  class Form {
    var claim: string
    var selectedVerticals: seq<Vertical>
    var isRecording: bool

    predicate Valid()
      reads this
    {
      NoDuplicates(selectedVerticals)
    }

    constructor ()
      ensures claim == "" && selectedVerticals == [Finance] && !isRecording
      ensures Valid()
    {
      claim := "";
      selectedVerticals := [Finance];
      isRecording := false;
    }

    /** Typing into the text area replaces the claim. */
    method SetClaim(text: string)
      modifies this
      ensures claim == text
      ensures selectedVerticals == old(selectedVerticals) && isRecording == old(isRecording)
    {
      claim := text;
    }

    /** `handleVerticalChange`, preserving the no-repeats invariant. */
    method HandleVerticalChange(v: Vertical)
      requires Valid()
      modifies this
      ensures selectedVerticals == Toggled(old(selectedVerticals), v)
      ensures claim == old(claim) && isRecording == old(isRecording)
      ensures Valid()
    {
      ToggleKeepsNoDuplicates(selectedVerticals, v);
      selectedVerticals := Toggled(selectedVerticals, v);
    }

    /** `toggleRecording`: starting dictation clears the claim; stopping keeps it. */
    method ToggleRecording()
      modifies this
      ensures isRecording == !old(isRecording)
      ensures claim == (if old(isRecording) then old(claim) else "")
      ensures selectedVerticals == old(selectedVerticals)
    {
      if isRecording {
        isRecording := false;
      } else {
        claim := "";
        isRecording := true;
      }
    }

    /** The recogniser's `onresult`: the finalised transcript is appended. */
    method OnTranscript(finalTranscript: string)
      modifies this
      ensures claim == old(claim) + finalTranscript
      ensures selectedVerticals == old(selectedVerticals) && isRecording == old(isRecording)
    {
      claim := claim + finalTranscript;
    }

    /** `handleSubmit`: what, if anything, is handed to the page. */
    method HandleSubmit() returns (submitted: Option<ClaimInput>)
      ensures submitted == SubmitGuard(claim, selectedVerticals)
      ensures submitted.Some? ==> Actions.AcceptsClaim(submitted.value)
    {
      submitted := SubmitGuard(claim, selectedVerticals);
      if submitted.Some? {
        FormSubmissionPassesServerGuard(claim, selectedVerticals);
      }
    }
  }
}
