/**
 * Preparing an outgoing email (MailTrapSender.SendEmail, up to the hand-off
 * to the SMTP client) and choosing the sender (NewMailSender).
 *
 * The mail library is abstract: whether it accepts the sender and the
 * address lists, and what the two template renderers produce, are given by
 * a `MailLib` value. The message the library builds is recorded as a
 * `Draft`: the headers, bodies and attachment calls SendEmail makes. The
 * error channel is an object whose `sent` field is the sequence of errors
 * written to it.
 */
module Mailer {
  import opened GoTypes
  import Settings

  datatype SmtpAuthType = SmtpAuthPlain | SmtpAuthLogin | SmtpAuthCramMD5

  /** The sender settings (MailTrapSender without its wait group). */
  datatype MailTrapSender = MailTrapSender(
    from: string,
    fromEmail: string,
    login: string,
    password: string,
    smtpHost: string,
    smtpPort: int,
    smtpAuth: SmtpAuthType,
    templateDir: string)

  const MailtrapService := "mailtrap"
  const MailtrapHost := "sandbox.smtp.mailtrap.io"
  const MailtrapPort := 2525
  const UnsupportedService := "not implemented any other mail service except mailtrap"

  /** The values the message data can hold: Go's nil, a string, or trusted HTML. */
  datatype Value = Nil | Str(s: string) | Html(s: string)

  /** An outgoing message; `None` stands for a nil map. */
  datatype Message = Message(
    from: string,
    fromEmail: string,
    subject: string,
    to: seq<string>,
    cc: seq<string>,
    bcc: seq<string>,
    data: Value,
    message: Option<map<string, Value>>,
    attachFiles: seq<string>,
    attachmentMap: Option<map<string, string>>,
    template: string)

  /** One AttachFile call: a path and, for map attachments, the file name to show. */
  datatype Attachment = Attachment(path: string, fileName: Option<string>)

  /**
   * The headers, bodies and attachment calls SendEmail makes on the library's
   * message: the arguments of those calls, whether or not the library
   * accepted them.
   */
  datatype Draft = Draft(
    fromName: string,
    fromEmail: string,
    to: seq<string>,
    cc: seq<string>,
    bcc: seq<string>,
    subject: string,
    plainBody: string,
    htmlBody: string,
    attachments: seq<Attachment>)

  /**
   * The mail library's answers: an error message when it rejects the sender
   * or an address list, and what each renderer makes of a template path and
   * the template data.
   */
  datatype MailLib = MailLib(
    fromFormat: (string, string) -> Option<string>,
    addresses: seq<string> -> Option<string>,
    renderPlain: (string, map<string, Value>) -> Result<string, string>,
    renderHtml: (string, map<string, Value>) -> Result<string, string>)

  /** The setup steps of SendEmail that report to the error channel, in the order they run. */
  datatype Step = FromStep | ToStep | CcStep | BccStep | PlainStep | HtmlStep
  {
    function Rank(): nat
    {
      match this
      case FromStep => 0
      case ToStep => 1
      case CcStep => 2
      case BccStep => 3
      case PlainStep => 4
      case HtmlStep => 5
    }

    function Prefix(): string
    {
      match this
      case FromStep => "failed to set from address: "
      case ToStep => "failed to set To address: "
      case CcStep => "failed to set CC address: "
      case BccStep => "failed to set BCC address: "
      case PlainStep => "failed to generate plain text message: "
      case HtmlStep => "failed to generate html formated message: "
    }
  }

  const SetupSteps: seq<Step> := [FromStep, ToStep, CcStep, BccStep, PlainStep, HtmlStep]

  /** An error written to the error channel by a failing step. */
  datatype MailError = MailError(step: Step, cause: string)
  {
    function Text(): string
    {
      step.Prefix() + cause
    }
  }

  /** The error channel, as the sequence of errors written to it. */
  class ErrorChannel {
    var sent: seq<MailError>

    constructor ()
      ensures sent == []
    {
      sent := [];
    }

    method Send(e: MailError)
      modifies this
      ensures sent == old(sent) + [e]
    {
      sent := sent + [e];
    }
  }

  /** NewMailSender: the Mailtrap sender for the "mailtrap" service, an error for any other. */
  function NewMailSender(conf: Settings.Config): (r: Result<MailTrapSender, string>)
    ensures r.Ok? <==> conf.emailService == MailtrapService
    ensures r.Ok? ==> r.value.smtpHost == MailtrapHost && r.value.smtpPort == MailtrapPort
                      && r.value.smtpAuth == SmtpAuthPlain
    ensures r.Ok? ==> r.value.from == conf.senderName && r.value.fromEmail == conf.senderEmail
                      && r.value.login == conf.emailLogin && r.value.password == conf.emailPassword
                      && r.value.templateDir == conf.pathToTemplate
    ensures r.Err? ==> r.error == UnsupportedService
  {
    match conf.emailService
    case "mailtrap" =>
      Ok(MailTrapSender(conf.senderName, conf.senderEmail, conf.emailLogin, conf.emailPassword,
                        "sandbox.smtp.mailtrap.io", 2525, SmtpAuthPlain, conf.pathToTemplate))
    case _ => Err("not implemented any other mail service except mailtrap")
  }

  /**
   * The message with its defaults filled in: template "mail", the sender's
   * name and address, an empty attachment map. Each is filled only where the
   * message leaves it empty (or nil); nothing else changes.
   */
  function Defaulted(email: Message, sender: MailTrapSender): (r: Message)
    ensures r.template != "" && (email.template != "" ==> r.template == email.template)
    ensures email.template == "" ==> r.template == "mail"
    ensures email.from == "" ==> r.from == sender.from
    ensures email.from != "" ==> r.from == email.from
    ensures email.fromEmail == "" ==> r.fromEmail == sender.fromEmail
    ensures email.fromEmail != "" ==> r.fromEmail == email.fromEmail
    ensures email.attachmentMap.None? ==> r.attachmentMap == Some(map[])
    ensures email.attachmentMap.Some? ==> r.attachmentMap == email.attachmentMap
  {
    email.(
      template := if email.template == "" then "mail" else email.template,
      from := if email.from == "" then sender.from else email.from,
      fromEmail := if email.fromEmail == "" then sender.fromEmail else email.fromEmail,
      attachmentMap := if email.attachmentMap.None? then Some(map[]) else email.attachmentMap)
  }

  /** Filling the defaults touches no field but the template, the sender and the attachment map. */
  lemma DefaultedKeepsOtherFields(email: Message, sender: MailTrapSender)
    ensures Defaulted(email, sender).(template := email.template, from := email.from, fromEmail := email.fromEmail,
                                      attachmentMap := email.attachmentMap) == email
  {
  }

  /** Filling the defaults twice is filling them once. */
  lemma DefaultedIdempotent(email: Message, sender: MailTrapSender)
    ensures Defaulted(Defaulted(email, sender), sender) == Defaulted(email, sender)
  {
  }

  /** The template data: the one-entry map from "message" to the message's data. */
  function TemplateData(data: Value): (m: map<string, Value>)
    ensures m.Keys == {"message"} && m["message"] == data
  {
    map["message" := data]
  }

  function PlainTemplatePath(templateDir: string, template: string): string
  {
    templateDir + "/" + template + ".plain.gohtml"
  }

  function HtmlTemplatePath(templateDir: string, template: string): string
  {
    templateDir + "/" + template + ".html.gohtml"
  }

  /**
   * Both template paths are the directory, a slash, the template name and
   * their own suffix: the template name can be read back from either, and the
   * two paths are never the same file.
   */
  lemma TemplatePathsShape(templateDir: string, template: string)
    ensures var p := PlainTemplatePath(templateDir, template);
      p[..|templateDir| + 1] == templateDir + "/" && p[|templateDir| + 1..|p| - 13] == template
      && p[|p| - 13..] == ".plain.gohtml"
    ensures var h := HtmlTemplatePath(templateDir, template);
      h[..|templateDir| + 1] == templateDir + "/" && h[|templateDir| + 1..|h| - 12] == template
      && h[|h| - 12..] == ".html.gohtml"
    ensures PlainTemplatePath(templateDir, template) != HtmlTemplatePath(templateDir, template)
  {
    var p := PlainTemplatePath(templateDir, template);
    var h := HtmlTemplatePath(templateDir, template);
    var k := |templateDir| + 1 + |template| + 1;
    assert p[k] == 'p' && h[k] == 'h';
  }

  /** The body a renderer gives: its output, or the empty string when it fails. */
  function BodyOf(rendered: Result<string, string>): string
  {
    if rendered.Ok? then rendered.value else ""
  }

  function RenderFault(rendered: Result<string, string>): (f: Option<string>)
    ensures f.Some? <==> rendered.Err?
  {
    if rendered.Err? then Some(rendered.error) else None
  }

  /** What a setup step reports for the message: its error message, if it fails. */
  function StepFault(step: Step, e: Message, sender: MailTrapSender, lib: MailLib): Option<string>
  {
    match step
    case FromStep => lib.fromFormat(e.from, e.fromEmail)
    case ToStep => lib.addresses(e.to)
    case CcStep => lib.addresses(e.cc)
    case BccStep => lib.addresses(e.bcc)
    case PlainStep => RenderFault(lib.renderPlain(PlainTemplatePath(sender.templateDir, e.template), TemplateData(e.data)))
    case HtmlStep => RenderFault(lib.renderHtml(HtmlTemplatePath(sender.templateDir, e.template), TemplateData(e.data)))
  }

  /** The error one step writes: one if it fails, none if it succeeds. */
  function StepReport(step: Step, e: Message, sender: MailTrapSender, lib: MailLib): seq<MailError>
  {
    FaultReport(step, StepFault(step, e, sender, lib))
  }

  /** The error a step with the given outcome writes. */
  function FaultReport(step: Step, fault: Option<string>): seq<MailError>
  {
    match fault
    case Some(cause) => [MailError(step, cause)]
    case None => []
  }

  /** The errors the given steps write, in step order. */
  function Reports(steps: seq<Step>, e: Message, sender: MailTrapSender, lib: MailLib): seq<MailError>
  {
    if steps == [] then [] else StepReport(steps[0], e, sender, lib) + Reports(steps[1..], e, sender, lib)
  }

  predicate RankIncreasing(steps: seq<Step>)
  {
    forall i, j :: 0 <= i < j < |steps| ==> steps[i].Rank() < steps[j].Rank()
  }

  predicate ErrorsRankIncreasing(errs: seq<MailError>)
  {
    forall i, j :: 0 <= i < j < |errs| ==> errs[i].step.Rank() < errs[j].step.Rank()
  }

  /** The errors of a list of steps are exactly the failures of those steps, with their causes. */
  lemma {:induction false} ReportsMembers(steps: seq<Step>, e: Message, sender: MailTrapSender, lib: MailLib)
    ensures forall err :: err in Reports(steps, e, sender, lib) <==>
      err.step in steps && StepFault(err.step, e, sender, lib) == Some(err.cause)
  {
    if steps != [] {
      ReportsMembers(steps[1..], e, sender, lib);
      forall s: Step | s in steps && s != steps[0] ensures s in steps[1..] {
        var k :| 0 <= k < |steps| && steps[k] == s;
        assert steps[1..][k - 1] == s;
      }
    }
  }

  /** Steps that run in order write their errors in that order. */
  lemma {:induction false} ReportsOrdered(steps: seq<Step>, e: Message, sender: MailTrapSender, lib: MailLib)
    requires RankIncreasing(steps)
    ensures ErrorsRankIncreasing(Reports(steps, e, sender, lib))
  {
    if steps != [] {
      var tail := steps[1..];
      assert RankIncreasing(tail) by {
        forall i, j | 0 <= i < j < |tail| ensures tail[i].Rank() < tail[j].Rank() {
          assert tail[i] == steps[i + 1] && tail[j] == steps[j + 1];
        }
      }
      ReportsOrdered(tail, e, sender, lib);
      ReportsMembers(tail, e, sender, lib);
      forall err | err in Reports(tail, e, sender, lib) ensures steps[0].Rank() < err.step.Rank() {
        var k :| 0 <= k < |tail| && tail[k] == err.step;
        assert steps[k + 1] == err.step;
      }
      StepReportShape(steps[0], e, sender, lib);
      PrependOrdered(steps[0], StepReport(steps[0], e, sender, lib), Reports(tail, e, sender, lib));
    }
  }

  /** A step writes at most one error, and only about itself. */
  lemma StepReportShape(step: Step, e: Message, sender: MailTrapSender, lib: MailLib)
    ensures var r := StepReport(step, e, sender, lib); |r| <= 1 && forall i :: 0 <= i < |r| ==> r[i].step == step
  {
  }

  /** At most one error of a step ranked below every later error keeps the errors ordered. */
  lemma PrependOrdered(step: Step, head: seq<MailError>, rest: seq<MailError>)
    requires |head| <= 1 && forall i :: 0 <= i < |head| ==> head[i].step == step
    requires ErrorsRankIncreasing(rest)
    requires forall err :: err in rest ==> step.Rank() < err.step.Rank()
    ensures ErrorsRankIncreasing(head + rest)
  {
    var r := head + rest;
    forall i, j | 0 <= i < j < |r| ensures r[i].step.Rank() < r[j].step.Rank() {
      if i < |head| {
        assert r[j] == rest[j - |head|];
      } else {
        assert r[i] == rest[i - |head|] && r[j] == rest[j - |head|];
      }
    }
  }

  /** The errors SendEmail writes while setting the message up. */
  function SetupErrors(e: Message, sender: MailTrapSender, lib: MailLib): seq<MailError>
  {
    Reports(SetupSteps, e, sender, lib)
  }

  /**
   * Each failing setup step writes exactly one error carrying its cause, a
   * step that succeeds writes none, and the errors come in the order the steps
   * run.
   */
  lemma SetupErrorsExact(e: Message, sender: MailTrapSender, lib: MailLib)
    ensures forall err :: err in SetupErrors(e, sender, lib) <==> StepFault(err.step, e, sender, lib) == Some(err.cause)
    ensures ErrorsRankIncreasing(SetupErrors(e, sender, lib))
    ensures |SetupErrors(e, sender, lib)| <= |SetupSteps|
  {
    ReportsMembers(SetupSteps, e, sender, lib);
    ReportsOrdered(SetupSteps, e, sender, lib);
    EveryStepIsSetup();
    AtMostOnePerRank(SetupErrors(e, sender, lib));
  }

  lemma EveryStepIsSetup()
    ensures forall s: Step :: s in SetupSteps
  {
    forall s: Step ensures s in SetupSteps {
      assert SetupSteps[s.Rank()] == s;
    }
  }

  /** Errors with strictly increasing step ranks are at most as many as there are steps. */
  lemma AtMostOnePerRank(errs: seq<MailError>)
    requires ErrorsRankIncreasing(errs)
    ensures |errs| <= |SetupSteps|
  {
    if errs != [] {
      RankAtLeastIndex(errs, |errs| - 1);
    }
  }

  lemma {:induction false} RankAtLeastIndex(errs: seq<MailError>, i: nat)
    requires ErrorsRankIncreasing(errs) && i < |errs|
    ensures errs[i].step.Rank() >= i
  {
    if i > 0 {
      RankAtLeastIndex(errs, i - 1);
    }
  }

  /**
   * The attachments taken from the attachment map: every entry exactly once,
   * attached from its value under its key as file name, in no particular
   * order (Go iterates maps in no fixed order).
   */
  ghost predicate MapAttached(tail: seq<Attachment>, attachmentMap: map<string, string>)
  {
    |tail| == |attachmentMap| &&
    (forall i :: 0 <= i < |tail| ==>
       tail[i].fileName.Some? && tail[i].fileName.value in attachmentMap
       && attachmentMap[tail[i].fileName.value] == tail[i].path) &&
    (forall key :: key in attachmentMap ==> Attachment(attachmentMap[key], Some(key)) in tail) &&
    (forall i, j :: 0 <= i < j < |tail| ==> tail[i].fileName != tail[j].fileName)
  }

  /** The attachment calls for a message: every listed file in order, then the map entries. */
  ghost predicate Attached(atts: seq<Attachment>, files: seq<string>, attachmentMap: map<string, string>)
  {
    |files| <= |atts| &&
    (forall k :: 0 <= k < |files| ==> atts[k] == Attachment(files[k], None)) &&
    MapAttached(atts[|files|..], attachmentMap)
  }

  /** The attachments made from distinct map keys, one per key, in the order the keys were taken. */
  ghost predicate FromKeys(tail: seq<Attachment>, names: seq<string>, attachmentMap: map<string, string>)
  {
    |tail| == |names| &&
    (forall i :: 0 <= i < |names| ==>
       names[i] in attachmentMap && tail[i] == Attachment(attachmentMap[names[i]], Some(names[i]))) &&
    (forall i, j :: 0 <= i < j < |names| ==> names[i] != names[j])
  }

  lemma FromAllKeys(tail: seq<Attachment>, names: seq<string>, attachmentMap: map<string, string>)
    requires FromKeys(tail, names, attachmentMap)
    requires |names| == |attachmentMap| && forall key :: key in attachmentMap ==> key in names
    ensures MapAttached(tail, attachmentMap)
  {
    forall key | key in attachmentMap ensures Attachment(attachmentMap[key], Some(key)) in tail {
      var i :| 0 <= i < |names| && names[i] == key;
      assert tail[i] == Attachment(attachmentMap[key], Some(key));
    }
  }

  /** Taking one more, not yet taken, key keeps the attachments made from distinct keys. */
  lemma FromKeysExtend(tail: seq<Attachment>, names: seq<string>, attachmentMap: map<string, string>, key: string)
    requires FromKeys(tail, names, attachmentMap)
    requires key in attachmentMap && key !in names
    ensures FromKeys(tail + [Attachment(attachmentMap[key], Some(key))], names + [key], attachmentMap)
  {
    var names' := names + [key];
    forall i, j | 0 <= i < j < |names'| ensures names'[i] != names'[j] {
      if j == |names| {
        assert names'[i] == names[i];
      }
    }
  }

  /** The loop over the attachment map, taking its keys in arbitrary order. */
  method AttachMapEntries(attachmentMap: map<string, string>) returns (tail: seq<Attachment>)
    ensures MapAttached(tail, attachmentMap)
  {
    tail := [];
    var remaining := attachmentMap.Keys;
    ghost var names: seq<string> := [];
    while remaining != {}
      invariant remaining <= attachmentMap.Keys
      invariant FromKeys(tail, names, attachmentMap)
      invariant forall k :: k in attachmentMap ==> (k in names <==> k !in remaining)
      invariant |names| + |remaining| == |attachmentMap|
      decreases remaining
    {
      var key :| key in remaining;
      FromKeysExtend(tail, names, attachmentMap, key);
      tail := tail + [Attachment(attachmentMap[key], Some(key))];
      names := names + [key];
      remaining := remaining - {key};
    }
    FromAllKeys(tail, names, attachmentMap);
  }

  /** The two attachment loops of SendEmail: the listed files, then the map entries. */
  method CollectAttachments(files: seq<string>, attachmentMap: map<string, string>) returns (atts: seq<Attachment>)
    ensures Attached(atts, files, attachmentMap)
  {
    atts := [];
    for i := 0 to |files|
      invariant |atts| == i
      invariant forall k :: 0 <= k < i ==> atts[k] == Attachment(files[k], None)
    {
      atts := atts + [Attachment(files[i], None)];
    }
    var tail := AttachMapEntries(attachmentMap);
    atts := atts + tail;
    assert atts[|files|..] == tail;
  }

  /** The errors of the header steps: sender, To, Cc and Bcc, in that order. */
  function HeaderErrors(e: Message, sender: MailTrapSender, lib: MailLib): seq<MailError>
  {
    StepReport(FromStep, e, sender, lib) + StepReport(ToStep, e, sender, lib) +
    StepReport(CcStep, e, sender, lib) + StepReport(BccStep, e, sender, lib)
  }

  /** The errors of the body steps: plain text, then HTML. */
  function BodyErrors(e: Message, sender: MailTrapSender, lib: MailLib): seq<MailError>
  {
    StepReport(PlainStep, e, sender, lib) + StepReport(HtmlStep, e, sender, lib)
  }

  lemma {:induction false} ReportsAppend(a: seq<Step>, b: seq<Step>, e: Message, sender: MailTrapSender, lib: MailLib)
    ensures Reports(a + b, e, sender, lib) == Reports(a, e, sender, lib) + Reports(b, e, sender, lib)
  {
    if a == [] {
      assert a + b == b;
    } else {
      assert (a + b)[1..] == a[1..] + b;
      ReportsAppend(a[1..], b, e, sender, lib);
    }
  }

  lemma ReportsPair(x: Step, y: Step, e: Message, sender: MailTrapSender, lib: MailLib)
    ensures Reports([x, y], e, sender, lib) == StepReport(x, e, sender, lib) + StepReport(y, e, sender, lib)
  {
    assert [x, y][1..] == [y];
    assert [y][1..] == [];
    assert Reports([y], e, sender, lib) == StepReport(y, e, sender, lib) + Reports([], e, sender, lib);
    assert StepReport(y, e, sender, lib) + [] == StepReport(y, e, sender, lib);
  }

  /** The setup errors are the header errors followed by the body errors. */
  lemma SetupErrorsSplit(e: Message, sender: MailTrapSender, lib: MailLib)
    ensures SetupErrors(e, sender, lib) == HeaderErrors(e, sender, lib) + BodyErrors(e, sender, lib)
  {
    assert SetupSteps == [FromStep, ToStep] + [CcStep, BccStep] + [PlainStep, HtmlStep];
    ReportsAppend([FromStep, ToStep] + [CcStep, BccStep], [PlainStep, HtmlStep], e, sender, lib);
    ReportsAppend([FromStep, ToStep], [CcStep, BccStep], e, sender, lib);
    ReportsPair(FromStep, ToStep, e, sender, lib);
    ReportsPair(CcStep, BccStep, e, sender, lib);
    ReportsPair(PlainStep, HtmlStep, e, sender, lib);
  }

  /** The steps' errors do not depend on the message's `message` field. */
  lemma ErrorsIgnoreTemplateData(e: Message, m: Option<map<string, Value>>, sender: MailTrapSender, lib: MailLib)
    ensures HeaderErrors(e.(message := m), sender, lib) == HeaderErrors(e, sender, lib)
    ensures BodyErrors(e.(message := m), sender, lib) == BodyErrors(e, sender, lib)
  {
  }

  /** The defaulting at the start of SendEmail, one field after another. */
  method ApplyDefaults(email: Message, sender: MailTrapSender) returns (e: Message)
    ensures e == Defaulted(email, sender)
  {
    e := email;
    if e.template == "" {
      e := e.(template := "mail");
    }
    if e.from == "" {
      e := e.(from := sender.from);
    }
    if e.fromEmail == "" {
      e := e.(fromEmail := sender.fromEmail);
    }
    if e.attachmentMap.None? {
      e := e.(attachmentMap := Some(map[]));
    }
  }

  /** The header steps of SendEmail: each failure is written to the channel and the next step runs. */
  method SetHeaders(e: Message, sender: MailTrapSender, errChan: ErrorChannel, lib: MailLib)
    modifies errChan
    ensures errChan.sent == old(errChan.sent) + HeaderErrors(e, sender, lib)
  {
    var fromErr := lib.fromFormat(e.from, e.fromEmail);
    ReportFault(FromStep, fromErr, errChan);
    var toErr := lib.addresses(e.to);
    ReportFault(ToStep, toErr, errChan);
    var ccErr := lib.addresses(e.cc);
    ReportFault(CcStep, ccErr, errChan);
    var bccErr := lib.addresses(e.bcc);
    ReportFault(BccStep, bccErr, errChan);
  }

  /** `if err != nil { errorChan <- err }` for one step. */
  method ReportFault(step: Step, fault: Option<string>, errChan: ErrorChannel)
    modifies errChan
    ensures errChan.sent == old(errChan.sent) + FaultReport(step, fault)
  {
    if fault.Some? {
      errChan.Send(MailError(step, fault.value));
    }
  }

  /**
   * The body steps of SendEmail: render the plain and the HTML template; a
   * failure is written to the channel and leaves that body empty.
   */
  method BuildBodies(e: Message, sender: MailTrapSender, errChan: ErrorChannel, lib: MailLib)
    returns (contentPlain: string, contentHtml: string)
    requires e.message == Some(TemplateData(e.data))
    modifies errChan
    ensures errChan.sent == old(errChan.sent) + BodyErrors(e, sender, lib)
    ensures contentPlain == BodyOf(lib.renderPlain(PlainTemplatePath(sender.templateDir, e.template), TemplateData(e.data)))
    ensures contentHtml == BodyOf(lib.renderHtml(HtmlTemplatePath(sender.templateDir, e.template), TemplateData(e.data)))
  {
    var templPlain := sender.templateDir + "/" + e.template + ".plain.gohtml";
    assert templPlain == PlainTemplatePath(sender.templateDir, e.template);
    contentPlain := "";
    var plain := lib.renderPlain(templPlain, e.message.value);
    if plain.Err? {
      errChan.Send(MailError(PlainStep, plain.error));
    } else {
      contentPlain := plain.value;
    }
    var templFormated := sender.templateDir + "/" + e.template + ".html.gohtml";
    assert templFormated == HtmlTemplatePath(sender.templateDir, e.template);
    contentHtml := "";
    var html := lib.renderHtml(templFormated, e.message.value);
    if html.Err? {
      errChan.Send(MailError(HtmlStep, html.error));
    } else {
      contentHtml := html.value;
    }
  }

  /**
   * SendEmail, up to the hand-off to the SMTP client: fills the defaults,
   * sets the headers, builds the template data and both bodies, attaches the
   * files, and writes one error to the channel for every setup step that
   * fails, carrying on with the next step each time.
   */
  method SendEmail(sender: MailTrapSender, email: Message, errChan: ErrorChannel, lib: MailLib)
    returns (prepared: Message, draft: Draft)
    modifies errChan
    ensures prepared == Defaulted(email, sender).(message := Some(TemplateData(email.data)))
    ensures errChan.sent == old(errChan.sent) + SetupErrors(Defaulted(email, sender), sender, lib)
    ensures draft.fromName == prepared.from && draft.fromEmail == prepared.fromEmail
    ensures draft.to == email.to && draft.cc == email.cc && draft.bcc == email.bcc
    ensures draft.subject == email.subject
    ensures draft.plainBody == BodyOf(lib.renderPlain(PlainTemplatePath(sender.templateDir, prepared.template),
                                                      TemplateData(email.data)))
    ensures draft.htmlBody == BodyOf(lib.renderHtml(HtmlTemplatePath(sender.templateDir, prepared.template),
                                                    TemplateData(email.data)))
    ensures Attached(draft.attachments, prepared.attachFiles, prepared.attachmentMap.value)
  {
    var e := ApplyDefaults(email, sender);
    ghost var defaults := e;
    SetHeaders(e, sender, errChan, lib);

    var data := map["message" := e.data];
    e := e.(message := Some(data));
    ErrorsIgnoreTemplateData(defaults, Some(data), sender, lib);

    var contentPlain, contentHtml := BuildBodies(e, sender, errChan, lib);

    var atts := CollectAttachments(e.attachFiles, e.attachmentMap.value);
    prepared := e;
    draft := Draft(e.from, e.fromEmail, e.to, e.cc, e.bcc, e.subject, contentPlain, contentHtml, atts);
    SetupErrorsSplit(defaults, sender, lib);
  }
}
