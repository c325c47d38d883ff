/** The document-audit panel (components/AuditModal.tsx): the pasted text,
    the step upload -> analyzing -> result and the stored verdict. The audit
    handler is split at its `await`: `StartAudit` runs up to the model call
    and returns the text it sends, `FinishAudit` runs with the verdict. The
    clipboard read is the parameter of `Paste`. */
module Audit {
  import opened Common
  import opened Text
  import opened Types

  datatype Step = Upload | Analyzing | Result

  class AuditModal {
    var step: Step
    var text: string
    var result: Option<AuditResult>

    /** A verdict is stored whenever the result step is shown, and none is
        while the upload step is. */
    predicate Consistent()
      reads this
    {
      (step == Upload ==> result.None?) && (step == Result ==> result.Some?)
    }

    /** `step === 'result' && result`: when the verdict panel renders. */
    predicate ShowsResult()
      reads this
    {
      step == Result && result.Some?
    }

    /** The audit button is enabled only for non-blank text. */
    predicate AuditEnabled()
      reads this
    {
      !IsBlank(text)
    }

    constructor()
      ensures step == Upload && text == "" && result == None
      ensures Consistent()
    {
      step := Upload;
      text := "";
      result := None;
    }

    /** The text area's `onChange`. */
    method SetText(t: string)
      modifies this
      ensures text == t && step == old(step) && result == old(result)
    {
      text := t;
    }

    /** `handlePaste`: `None` is a failed clipboard read, which leaves the
        text as it was. */
    method Paste(clipboard: Option<string>)
      modifies this
      ensures clipboard.Some? ==> text == clipboard.value
      ensures clipboard.None? ==> text == old(text)
      ensures step == old(step) && result == old(result)
    {
      if clipboard.Some? {
        text := clipboard.value;
      }
    }

    /** `handleAudit` up to the model call: blank text changes nothing and
        sends nothing; otherwise the panel shows the analyzing step and the
        text is sent as is. */
    method StartAudit() returns (sent: Option<string>)
      modifies this
      ensures IsBlank(old(text)) ==> sent == None && step == old(step)
      ensures !IsBlank(old(text)) ==> sent == Some(old(text)) && step == Analyzing
      ensures text == old(text) && result == old(result)
      ensures old(Consistent()) ==> Consistent()
    {
      if Trim(text) == "" {
        return None;
      }
      step := Analyzing;
      sent := Some(text);
    }

    /** `handleAudit` after the model answered `verdict`. */
    method FinishAudit(verdict: AuditResult)
      modifies this
      ensures result == Some(verdict) && step == Result && text == old(text)
      ensures ShowsResult() && Consistent()
    {
      result := Some(verdict);
      step := Result;
    }

    /** `reset`, from any step. */
    method Reset()
      modifies this
      ensures step == Upload && text == "" && result == None
      ensures Consistent() && !ShowsResult()
    {
      step := Upload;
      text := "";
      result := None;
    }
  }

  /** An audit of non-blank text ends on the result step showing exactly the
      verdict, and the text audited is the one in the box. */
  method AuditRun(m: AuditModal, verdict: AuditResult) returns (sent: Option<string>)
    requires !IsBlank(m.text)
    modifies m
    ensures sent == Some(old(m.text))
    ensures m.ShowsResult() && m.result == Some(verdict) && m.text == old(m.text)
  {
    sent := m.StartAudit();
    m.FinishAudit(verdict);
  }
}
