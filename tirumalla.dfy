/** The agent dashboard that drives the member wizard: the preview and confirm
    steps around it, and the classifier that turns a failed save into the text
    of the error alert. */
module Tirumalla {
  import opened Wrappers
  import opened JsString
  import opened AddMemberForm

  // ---------------------------------------------------------------- the reply

  /** `error.response?.data` of a failed save: nothing, a text body (an HTML
      error page, say), or a JSON object with its `message` field. */
  datatype Body = NoBody | Text(text: string) | Record(message: Option<string>)

  /** The texts the error alert can show. */
  datatype Notice =
    | ServerError
    | Unexpected
    | Duplicate(fieldName: string, value: string)
    | CheckInput
    | Raw(text: string)
    | SaveFailed
  {
    function Text(): string {
      match this
      case ServerError => "Server error occurred. Please try again later."
      case Unexpected => "An unexpected error occurred. Please try again."
      case Duplicate(f, v) =>
        "A member with this " + f + " (" + v + ") already exists. Please use a different " + f + "."
      case CheckInput => "Please check your input and try again."
      case Raw(t) => t
      case SaveFailed => "Failed to save member. Please try again."
    }
  }

  const HtmlMarker := "<!DOCTYPE html>"
  const DuplicateMarker := "duplicate key error"
  const ValidationMarker := "validation failed"
  const TypeErrorMarker := "TypeError"

  // ------------------------------------------ /dup key: { ([^:]+): "([^"]+)" }/

  const DupPrefix := "dup key: { "
  const FieldEnd := ": \""
  const ValueEnd := "\" }"

  /** The two groups of a match. */
  datatype DupKey = DupKey(field: string, value: string)

  predicate NoChar(t: string, c: char) {
    forall j :: 0 <= j < |t| ==> t[j] != c
  }

  /** The expression matches at `i` with these groups: the literal text
      around a non-empty field without ':' and a non-empty value without '"'. */
  ghost predicate DupKeyMatch(s: string, i: int, k: DupKey) {
    && k.field != [] && NoChar(k.field, ':')
    && k.value != [] && NoChar(k.value, '"')
    && OccursAt(s, DupPrefix + k.field + FieldEnd + k.value + ValueEnd, i)
  }

  /** Where a greedy `[^c]+` starting at `from` stops: the first `c`, or the
      end of the text. */
  function RunEnd(s: string, from: nat, c: char): (e: nat)
    requires from <= |s|
    ensures from <= e <= |s|
    ensures forall j :: from <= j < e ==> s[j] != c
    ensures e < |s| ==> s[e] == c
    decreases |s| - from
  {
    if from == |s| || s[from] == c then from else RunEnd(s, from + 1, c)
  }

  /** The attempt to match at one start position. A `[^c]+` group followed by
      the character `c` cannot give anything back when the rest fails, so each
      group is the whole run up to its stop character. */
  function MatchAt(s: string, i: nat): Option<DupKey> {
    if !OccursAt(s, DupPrefix, i) then None
    else
      var f0 := i + |DupPrefix|;
      var f1 := RunEnd(s, f0, ':');
      if f1 == f0 || !OccursAt(s, FieldEnd, f1) then None
      else
        var v0 := f1 + |FieldEnd|;
        var v1 := RunEnd(s, v0, '"');
        if v1 == v0 || !OccursAt(s, ValueEnd, v1) then None
        else Some(DupKey(s[f0..f1], s[v0..v1]))
  }

  /** `String.prototype.match`: the leftmost start position, at or after
      `from`, where the expression matches. */
  function DupKeyIndex(s: string, from: nat): (r: Option<nat>)
    ensures r.Some? ==> from <= r.value <= |s| && MatchAt(s, r.value).Some?
    ensures r.Some? ==> forall j :: from <= j < r.value ==> MatchAt(s, j).None?
    ensures r.None? ==> forall j :: from <= j ==> MatchAt(s, j).None?
    decreases |s| + 1 - from
  {
    if from > |s| then None
    else if MatchAt(s, from).Some? then Some(from)
    else DupKeyIndex(s, from + 1)
  }

  /** The match of the whole message, if any. */
  function FindDupKey(s: string): Option<DupKey> {
    match DupKeyIndex(s, 0)
    case None => None
    case Some(i) => MatchAt(s, i)
  }

  lemma OccursAtConcat(s: string, a: string, b: string, i: int)
    ensures OccursAt(s, a + b, i) <==> OccursAt(s, a, i) && OccursAt(s, b, i + |a|)
  {
    if OccursAt(s, a, i) && OccursAt(s, b, i + |a|) {
      assert s[i..i + |a + b|] == s[i..i + |a|] + s[i + |a|..i + |a| + |b|];
    }
    if OccursAt(s, a + b, i) {
      assert s[i..i + |a|] == (a + b)[..|a|];
      assert s[i + |a|..i + |a| + |b|] == (a + b)[|a|..];
    }
  }

  /** The literal pieces of a match, one after the other. */
  lemma DupKeyMatchPieces(s: string, i: int, k: DupKey)
    ensures OccursAt(s, DupPrefix + k.field + FieldEnd + k.value + ValueEnd, i) <==>
      && OccursAt(s, DupPrefix, i)
      && OccursAt(s, k.field, i + |DupPrefix|)
      && OccursAt(s, FieldEnd, i + |DupPrefix| + |k.field|)
      && OccursAt(s, k.value, i + |DupPrefix| + |k.field| + |FieldEnd|)
      && OccursAt(s, ValueEnd, i + |DupPrefix| + |k.field| + |FieldEnd| + |k.value|)
  {
    var p1 := DupPrefix + k.field;
    var p2 := p1 + FieldEnd;
    var p3 := p2 + k.value;
    OccursAtConcat(s, p3, ValueEnd, i);
    OccursAtConcat(s, p2, k.value, i);
    OccursAtConcat(s, p1, FieldEnd, i);
    OccursAtConcat(s, DupPrefix, k.field, i);
  }

  /** A greedy run that stops at `c` and a group followed by `c` agree. */
  lemma RunEndOfGroup(s: string, from: nat, t: string, c: char)
    requires from <= |s| && NoChar(t, c) && OccursAt(s, t, from)
    requires from + |t| < |s| && s[from + |t|] == c
    ensures RunEnd(s, from, c) == from + |t|
  {
  }

  lemma MatchAtSound(s: string, i: nat)
    requires MatchAt(s, i).Some?
    ensures DupKeyMatch(s, i, MatchAt(s, i).value)
  {
    var k := MatchAt(s, i).value;
    var f0 := i + |DupPrefix|;
    var f1 := RunEnd(s, f0, ':');
    var v0 := f1 + |FieldEnd|;
    var v1 := RunEnd(s, v0, '"');
    assert k.field == s[f0..f1] && k.value == s[v0..v1];
    assert OccursAt(s, k.field, f0) && OccursAt(s, k.value, v0);
    DupKeyMatchPieces(s, i, k);
  }

  lemma MatchAtComplete(s: string, i: nat, k: DupKey)
    requires DupKeyMatch(s, i, k)
    ensures MatchAt(s, i) == Some(k)
  {
    DupKeyMatchPieces(s, i, k);
    var f0 := i + |DupPrefix|;
    var f1 := f0 + |k.field|;
    assert s[f1] == s[f1..f1 + |FieldEnd|][0];
    RunEndOfGroup(s, f0, k.field, ':');
    var v0 := f1 + |FieldEnd|;
    var v1 := v0 + |k.value|;
    assert s[v1] == s[v1..v1 + |ValueEnd|][0];
    RunEndOfGroup(s, v0, k.value, '"');
    assert s[f0..f1] == k.field && s[v0..v1] == k.value;
  }

  /** MatchAt finds exactly the groups with which the expression matches
      there: at one start position there is at most one match. */
  lemma MatchAtIff(s: string, i: nat, k: DupKey)
    ensures MatchAt(s, i) == Some(k) <==> DupKeyMatch(s, i, k)
  {
    if MatchAt(s, i) == Some(k) { MatchAtSound(s, i); }
    if DupKeyMatch(s, i, k) { MatchAtComplete(s, i, k); }
  }

  /** FindDupKey returns the groups of the leftmost match, and there is no
      match at all when it returns nothing. */
  lemma FindDupKeyIsLeftmost(s: string)
    ensures FindDupKey(s).Some? ==>
      exists i :: DupKeyMatch(s, i, FindDupKey(s).value) && forall j, k :: 0 <= j < i ==> !DupKeyMatch(s, j, k)
    ensures FindDupKey(s).None? ==> forall j: nat, k :: !DupKeyMatch(s, j, k)
  {
    var r := DupKeyIndex(s, 0);
    if r.Some? {
      var i := r.value;
      MatchAtIff(s, i, FindDupKey(s).value);
      forall j, k | 0 <= j < i ensures !DupKeyMatch(s, j, k) {
        MatchAtIff(s, j, k);
      }
    } else {
      forall j: nat, k ensures !DupKeyMatch(s, j, k) {
        MatchAtIff(s, j, k);
      }
    }
  }

  // ---------------------------------------------------------------- formatErrorMessage

  /** The duplicate-key notice: the field name spaced before each capital
      and lower-cased, and the offending value. */
  function DuplicateNotice(k: DupKey): Notice {
    Duplicate(ToLower(SpaceBeforeCapitals(k.field)), k.value)
  }

  /** The checks on a non-empty `data.message`, in the order they run. */
  function ClassifyMessage(m: string): (r: Notice)
    requires m != ""
    ensures r != SaveFailed
    ensures r.Raw? ==> r.text == m
  {
    if Includes(m, DuplicateMarker) && FindDupKey(m).Some? then DuplicateNotice(FindDupKey(m).value)
    else if Includes(m, ValidationMarker) then CheckInput
    else if Includes(m, TypeErrorMarker) then ServerError
    else Raw(m)
  }

  /** `formatErrorMessage` as evidently intended: the HTML test applies to a
      text body, and a message is looked for in an object body. */
  function FormatErrorMessage(b: Body): (r: Notice)
    ensures r != SaveFailed
    ensures r.Raw? ==> b.Record? && b.message == Some(r.text) && r.text != ""
  {
    match b
    case NoBody => Unexpected
    case Text(t) => if Includes(t, HtmlMarker) then ServerError else Unexpected
    case Record(m) => if m.None? || m.value == "" then Unexpected else ClassifyMessage(m.value)
  }

  /** An HTML error page is reported as a server error; any other text body,
      a missing body, or an object without a message is unexpected. */
  lemma NoMessageIsUnexpected(b: Body)
    ensures b.Text? ==> (FormatErrorMessage(b) == ServerError <==> Includes(b.text, HtmlMarker))
    ensures b.Text? && !Includes(b.text, HtmlMarker) ==> FormatErrorMessage(b) == Unexpected
    ensures b.NoBody? || (b.Record? && (b.message.None? || b.message.value == "")) ==>
      FormatErrorMessage(b) == Unexpected
  {
  }

  /** A duplicate-key message names the field and value of the leftmost
      `dup key: { field: "value" }` in it. */
  lemma DuplicateNamesLeftmostKey(m: string, i: nat, k: DupKey)
    requires Includes(m, DuplicateMarker)
    requires DupKeyMatch(m, i, k)
    requires forall j, k' :: 0 <= j < i ==> !DupKeyMatch(m, j, k')
    ensures FormatErrorMessage(Record(Some(m))) == Duplicate(ToLower(SpaceBeforeCapitals(k.field)), k.value)
  {
    MatchAtIff(m, i, k);
    var r := DupKeyIndex(m, 0);
    if r.None? || r.value != i {
      if r.Some? && r.value < i {
        MatchAtIff(m, r.value, MatchAt(m, r.value).value);
      }
      assert false;
    }
  }

  /** Without a duplicate-key match the message is tested for the two
      keywords in turn, and otherwise shown as it is. */
  lemma KeywordPrecedence(m: string)
    requires m != ""
    requires !Includes(m, DuplicateMarker) || forall j: nat, k :: !DupKeyMatch(m, j, k)
    ensures Includes(m, ValidationMarker) ==> FormatErrorMessage(Record(Some(m))) == CheckInput
    ensures !Includes(m, ValidationMarker) && Includes(m, TypeErrorMarker) ==>
      FormatErrorMessage(Record(Some(m))) == ServerError
    ensures !Includes(m, ValidationMarker) && !Includes(m, TypeErrorMarker) ==>
      FormatErrorMessage(Record(Some(m))) == Raw(m)
  {
    FindDupKeyIsLeftmost(m);
    if Includes(m, DuplicateMarker) && FindDupKey(m).Some? {
      assert false;
    }
  }

  /** `formatErrorMessage` as written: `data?.includes(...)` calls a method an
      object does not have, so every object body throws out of the catch
      block. */
  datatype Outcome = Threw | Returned(notice: Notice)

  function FormatErrorMessageAsWritten(b: Body): (r: Outcome)
    ensures b.Record? <==> r == Threw
  {
    match b
    case NoBody => Returned(Unexpected)
    case Text(t) => Returned(if Includes(t, HtmlMarker) then ServerError else Unexpected)
    case Record(_) => Threw
  }

  /** The two agree on every body that is not an object; on an object the
      written one throws, so the duplicate-key, validation and TypeError
      branches are never reached. */
  lemma AsWrittenAgreesOffRecords(b: Body)
    ensures !b.Record? ==> FormatErrorMessageAsWritten(b) == Returned(FormatErrorMessage(b))
  {
  }

  /** A validation failure reported by the server: the written classifier
      throws where the intended one asks the user to check the input. */
  lemma ValidationReplyThrows()
    ensures FormatErrorMessageAsWritten(Record(Some(ValidationMarker))) == Threw
    ensures FormatErrorMessage(Record(Some(ValidationMarker))) == CheckInput
  {
    assert OccursAt(ValidationMarker, ValidationMarker, 0);
  }

  // ---------------------------------------------------------------- the dashboard

  /** `previewData`: the draft with the time stamp it was previewed at. */
  datatype Preview = Preview(draft: Draft, id: int)

  /** `successMessage`, shown after a save. */
  datatype Saved = Saved(memberName: string, contactNo: string, email: string, memberId: string)

  /** What `createMember.mutateAsync` is sent. */
  datatype Request = Request(preview: Preview, vendorId: string)

  class Dashboard {
    var showModal: bool
    var successMessage: Option<Saved>
    var errorMessage: Option<Notice>
    var previewData: Option<Preview>
    var formData: Option<Draft>

    constructor ()
      ensures !showModal && successMessage == None && errorMessage == None
      ensures previewData == None && formData == None
    {
      showModal := false;
      successMessage := None;
      errorMessage := None;
      previewData := None;
      formData := None;
    }

    /** `handleShow` ("Add Member"): a fresh wizard, with every message,
        the preview and the kept draft cleared. */
    method Show()
      modifies this
      ensures showModal && successMessage == None && errorMessage == None
      ensures previewData == None && formData == None
    {
      showModal := true;
      successMessage := None;
      errorMessage := None;
      previewData := None;
      formData := None;
    }

    /** `handleHide`: the wizard closes and drops the preview and the kept
        draft; the messages stay. */
    method Hide()
      modifies this`showModal, this`previewData, this`formData
      ensures !showModal && previewData == None && formData == None
    {
      showModal := false;
      previewData := None;
      formData := None;
    }

    /** `handleFormSubmit`: the wizard's draft is previewed, stamped with
        `now` (`Date.now()`), and kept for a later edit. */
    method FormSubmit(d: Draft, now: int)
      modifies this`showModal, this`previewData, this`formData
      ensures previewData == Some(Preview(d, now)) && formData == Some(d) && !showModal
    {
      previewData := Some(Preview(d, now));
      formData := Some(d);
      showModal := false;
    }

    /** `handleConfirmSubmit` as written, with the save's reply as `outcome`:
        the member id on success, the error body on failure. The button exists
        only while a preview is shown. On an object body the catch block's call
        of `formatErrorMessage` throws, so `setErrorMessage` never runs and the
        rejection leaves the handler (`threw`). */
    method ConfirmSubmit(vendorId: string, outcome: Result<string, Body>) returns (sent: Request, threw: bool)
      requires previewData.Some?
      modifies this`successMessage, this`previewData, this`formData, this`errorMessage
      ensures sent == Request(old(previewData).value, vendorId)
      ensures threw <==> outcome.Err? && outcome.error.Record?
      ensures outcome.Ok? ==>
        var p := old(previewData).value.draft;
        && successMessage == Some(Saved(p.memberName, p.contactNo, p.email, outcome.value))
        && previewData == None && formData == None && errorMessage == None
      ensures outcome.Err? ==>
        && (threw ==> errorMessage == old(errorMessage))
        && (!threw ==> errorMessage == Some(FormatErrorMessageAsWritten(outcome.error).notice))
        && successMessage == old(successMessage)
        && previewData == old(previewData) && formData == old(formData)
    {
      var p := previewData.value;
      sent := Request(p, vendorId);
      threw := false;
      match outcome
      case Ok(welinId) =>
        successMessage := Some(Saved(p.draft.memberName, p.draft.contactNo, p.draft.email, welinId));
        previewData := None;
        formData := None;
        errorMessage := None;
      case Err(body) =>
        match FormatErrorMessageAsWritten(body)
        case Threw => threw := true;
        case Returned(n) => errorMessage := Some(n);
    }

    /** `handleConfirmSubmit` over the corrected classifier: every failure,
        object bodies included, shows a notice and keeps the preview. */
    method ConfirmSubmitCorrected(vendorId: string, outcome: Result<string, Body>) returns (sent: Request)
      requires previewData.Some?
      modifies this`successMessage, this`previewData, this`formData, this`errorMessage
      ensures sent == Request(old(previewData).value, vendorId)
      ensures outcome.Ok? ==>
        var p := old(previewData).value.draft;
        && successMessage == Some(Saved(p.memberName, p.contactNo, p.email, outcome.value))
        && previewData == None && formData == None && errorMessage == None
      ensures outcome.Err? ==>
        && errorMessage == Some(FormatErrorMessage(outcome.error))
        && successMessage == old(successMessage)
        && previewData == old(previewData) && formData == old(formData)
    {
      var p := previewData.value;
      sent := Request(p, vendorId);
      match outcome
      case Ok(welinId) =>
        successMessage := Some(Saved(p.draft.memberName, p.draft.contactNo, p.draft.email, welinId));
        previewData := None;
        formData := None;
        errorMessage := None;
      case Err(body) =>
        errorMessage := Some(FormatErrorMessage(body));
    }

    /** `handleBackToEdit`: the wizard reopens, the preview and the error go,
        and the kept draft stays to be handed back as `initialData`. */
    method BackToEdit()
      modifies this`showModal, this`previewData, this`errorMessage
      ensures showModal && previewData == None && errorMessage == None
    {
      showModal := true;
      previewData := None;
      errorMessage := None;
    }

    /** Closing the error alert. */
    method DismissError()
      modifies this`errorMessage
      ensures errorMessage == None
    {
      errorMessage := None;
    }
  }

  /** A save refused with `{ message: "validation failed" }`: as written the
      handler throws and the alert stays empty; the corrected handler asks the
      user to check the input. */
  method ValidationReplyAtConfirm(d: Draft, now: int, vendorId: string) returns (written: Dashboard, corrected: Dashboard)
    ensures written.errorMessage == None && written.previewData == Some(Preview(d, now))
    ensures corrected.errorMessage == Some(CheckInput) && corrected.previewData == Some(Preview(d, now))
  {
    var reply: Result<string, Body> := Err(Record(Some(ValidationMarker)));
    ValidationReplyThrows();
    written := new Dashboard();
    written.Show();
    written.FormSubmit(d, now);
    var _, threw := written.ConfirmSubmit(vendorId, reply);
    corrected := new Dashboard();
    corrected.Show();
    corrected.FormSubmit(d, now);
    var _ := corrected.ConfirmSubmitCorrected(vendorId, reply);
  }

  /** Submit a draft from the wizard, go back to edit it, and the wizard
      reopens with exactly that draft. */
  method BackToEditRoundTrip(d: Draft, now: int, useTestData: string) returns (board: Dashboard, wizard: Wizard)
    ensures board.showModal && board.previewData == None && board.formData == Some(d)
    ensures wizard.formData == d && wizard.errors == map[]
  {
    board := new Dashboard();
    wizard := new Wizard();
    board.Show();
    board.FormSubmit(d, now);
    board.BackToEdit();
    wizard.Open(board.formData, useTestData);
  }
}
