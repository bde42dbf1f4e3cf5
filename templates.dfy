/** Notification templating (utils/templates/parcelNotificationTemplates.js):
    the per-language status labels, language normalisation, the two parcel
    templates in English and Bengali, and the renderer that picks one. */
module Templates {
  import opened Common
  import opened JsStrings
  import opened ParcelModel
  import opened UserModel

  /** `STATUS_LABELS[status][language]`. */
  function StatusLabel(s: ParcelStatus, l: Language): string {
    match (s, l)
    case (Booked, EN) => "Booked"
    case (Booked, BN) => "বুকড"
    case (Assigned, EN) => "Agent Assigned"
    case (Assigned, BN) => "এজেন্ট নিয়োগ"
    case (PickedUp, EN) => "Picked Up"
    case (PickedUp, BN) => "পিকআপ সম্পন্ন"
    case (InTransit, EN) => "In Transit"
    case (InTransit, BN) => "চলমান"
    case (Delivered, EN) => "Delivered"
    case (Delivered, BN) => "ডেলিভারড"
    case (Failed, EN) => "Delivery Failed"
    case (Failed, BN) => "ডেলিভারি ব্যর্থ"
    case (Cancelled, EN) => "Cancelled"
    case (Cancelled, BN) => "বাতিল"
  }

  /** `STATUS_LABELS[status]?.[language]` for an arbitrary status string. */
  function LabelLookup(status: string, l: Language): Option<string> {
    match ParseStatus(status)
    case Some(s) => Some(StatusLabel(s, l))
    case None => None
  }

  /** `normalizeLanguage`: BN exactly for the four spellings of "bn";
      anything else, including a missing language, gives EN. */
  function NormalizeLanguage(language: Option<string>): (l: Language)
    ensures l == BN <==> language.Some? && language.value in {"BN", "Bn", "bN", "bn"}
  {
    if language.Some? then
      UpperIsBn(language.value);
      if ToUpperAscii(language.value) == "BN" then BN else EN
    else EN
  }

  /** A string upper-cases to "BN" iff it is one of the four spellings of "bn". */
  lemma UpperIsBn(s: string)
    ensures ToUpperAscii(s) == "BN" <==> s in {"BN", "Bn", "bN", "bn"}
  {
    UpperIsWord(s, "BN");
    assert ('B' as int + 32) as char == 'b' && ('N' as int + 32) as char == 'n';
    if |s| == 2 {
      assert s == [s[0], s[1]];
    }
  }

  /** `getStatusLabel(status, language = "EN")`. */
  function GetStatusLabel(status: string, language: Option<string>): (r: string)
    ensures ParseStatus(status).Some? ==> r == StatusLabel(ParseStatus(status).value, NormalizeLanguage(language))
    ensures ParseStatus(status).None? ==> r == status
  {
    LabelLookup(status, NormalizeLanguage(language)).GetOr(status)
  }

  /** The label of a stored status, named by its enum spelling, is the table's. */
  lemma GetStatusLabelKnown(s: ParcelStatus, language: Option<string>)
    ensures GetStatusLabel(StatusName(s), language) == StatusLabel(s, NormalizeLanguage(language))
  {
    StatusNameRoundTrip(s);
  }

  /** `formatDateTime`: the instant's locale text (opaque). */
  function FormatDateTime(t: Timestamp): string {
    t.localText
  }

  /** `wrapEmailBody`. */
  function WrapEmailBody(body: string): string {
    Join([WrapHead, body, WrapTail])
  }

  const WrapHead: string := "\n  <div style=\"font-family: 'Segoe UI', Tahoma, sans-serif; line-height: 1.5; color: #111827;\">\n    "
  const WrapTail: string := "\n    <p style=\"margin-top: 24px; font-size: 12px; color: #6b7280;\">\n      Thank you for choosing our delivery service.\n    </p>\n  </div>\n"

  /** The template context after the caller's values have been merged in. */
  datatype RenderContext = RenderContext(
    status: string,
    note: Option<string>,
    trackingCode: string,
    customerName: string,
    pickupAddress: Option<string>,
    deliveryAddress: Option<string>,
    scheduledPickupAt: Option<Timestamp>,
    eta: Option<string>)

  /** A template builder's output: the template literals of the subject, the
      e-mail body (before `wrapEmailBody`) and the SMS, each as its pieces. */
  datatype Content = Content(subject: seq<string>, body: seq<string>, sms: seq<string>)

  /** What `renderParcelNotification` returns. */
  datatype Rendered = Rendered(emailSubject: string, emailHtml: string, smsText: string)

  const PARCEL_BOOKED: string := "PARCEL_BOOKED"
  const PARCEL_STATUS_UPDATED: string := "PARCEL_STATUS_UPDATED"

  /** The words that start the note line. */
  function NotePrefix(l: Language): string {
    if l == EN then "Note: " else "নোট: "
  }

  /** The words that start the scheduled-pickup sentence. */
  function SchedulePrefix(l: Language): string {
    if l == EN then "Scheduled pickup: " else "নির্ধারিত পিকআপ: "
  }

  /** The sentence used when no pickup time is scheduled. */
  function UnassignedText(l: Language): string {
    if l == EN then "We'll notify you when a courier is assigned." else "এজেন্ট নিয়োগ হলেই জানানো হবে।"
  }

  function ScheduleText(ctx: RenderContext, l: Language): string {
    if ctx.scheduledPickupAt.Some? then SchedulePrefix(l) + FormatDateTime(ctx.scheduledPickupAt.value)
    else UnassignedText(l)
  }

  function NoteText(ctx: RenderContext, l: Language): string {
    if Truthy(ctx.note) then NotePrefix(l) + ctx.note.value else ""
  }

  function NoteParagraph(ctx: RenderContext, l: Language): string {
    if NoteText(ctx, l) != "" then "<p>" + NoteText(ctx, l) + "</p>" else ""
  }

  /** The template's `statusLabel`: the label handed in, else the table's
      label in the template's language, else the raw status. */
  function TemplateLabel(ctxLabel: Option<string>, status: string, l: Language): string {
    if ctxLabel.Some? then ctxLabel.value else LabelLookup(status, l).GetOr(status)
  }

  /** `templates.PARCEL_BOOKED[language]`. */
  function BookedContent(l: Language, ctx: RenderContext): Content {
    var schedule := ScheduleText(ctx, l);
    var code := ctx.trackingCode;
    if l == EN then
      var pickup := if Truthy(ctx.pickupAddress) then "Pickup: " + ctx.pickupAddress.value else "";
      var drop := if Truthy(ctx.deliveryAddress) then "Delivery: " + ctx.deliveryAddress.value else "";
      Content(
        ["Shipment booked (", code, ")"],
        ["\n          <p>Hi ", ctx.customerName, ",</p>\n          <p>Your parcel booking is confirmed. ", schedule,
         "</p>\n          <p>", pickup, "<br/>", drop, "</p>\n          <p>Tracking code: <strong>", code,
         "</strong></p>\n        "],
        ["Booking confirmed for parcel ", code, ". ", schedule])
    else
      var pickup := if Truthy(ctx.pickupAddress) then "পিকআপ ঠিকানা: " + ctx.pickupAddress.value else "";
      var drop := if Truthy(ctx.deliveryAddress) then "ডেলিভারি ঠিকানা: " + ctx.deliveryAddress.value else "";
      Content(
        ["চালান নিশ্চিত (", code, ")"],
        ["\n          <p>হ্যালো ", ctx.customerName, ",</p>\n          <p>আপনার পার্সেল বুকিং নিশ্চিত হয়েছে। ", schedule,
         "</p>\n          <p>", pickup, "<br/>", drop, "</p>\n          <p>ট্র্যাকিং কোড: <strong>", code,
         "</strong></p>\n        "],
        ["আপনার ", code, " পার্সেল বুক হয়েছে। ", schedule])
  }

  /** `templates.PARCEL_STATUS_UPDATED[language]`. */
  function StatusUpdatedContent(l: Language, ctx: RenderContext, ctxLabel: Option<string>): Content {
    var shown := TemplateLabel(ctxLabel, ctx.status, l);
    var code := ctx.trackingCode;
    if l == EN then
      var etaPart := if Truthy(ctx.eta) then "<p>Next milestone: " + ctx.eta.value + "</p>" else "";
      Content(
        ["Update: ", shown, " (", code, ")"],
        ["\n          <p>Hi ", ctx.customerName, ",</p>\n          <p>Your parcel ", code, " is now <strong>", shown,
         "</strong>.</p>\n          ", etaPart, "\n          ", NoteParagraph(ctx, l), "\n        "],
        ["Parcel ", code, " is ", shown, ". ", NoteText(ctx, l)])
    else
      Content(
        ["অবস্থা: ", shown, " (", code, ")"],
        ["\n          <p>হ্যালো ", ctx.customerName, ",</p>\n          <p>আপনার ", code, " পার্সেল এখন <strong>", shown,
         "</strong>.</p>\n          ", NoteParagraph(ctx, l), "\n        "],
        [code, " এখন ", shown, ". ", NoteText(ctx, l)])
  }

  /** A builder's literals as the three strings of the rendered message. */
  function Assemble(c: Content): Rendered {
    Rendered(Join(c.subject), WrapEmailBody(Join(c.body)), Join(c.sms))
  }

  /** `renderParcelNotification(templateKey, language, context)`: an unknown
      template key renders empty content on every channel; both known
      templates, in either language, give a non-empty subject, e-mail body and
      SMS, each containing the tracking code. */
  function Render(templateKey: string, language: Option<string>, context: RenderContext): (r: Rendered)
    ensures templateKey != PARCEL_BOOKED && templateKey != PARCEL_STATUS_UPDATED ==> r == Rendered("", "", "")
    ensures templateKey == PARCEL_BOOKED || templateKey == PARCEL_STATUS_UPDATED ==>
      r.emailSubject != "" && r.emailHtml != "" && r.smsText != "" && CarriesCode(r, context.trackingCode)
  {
    var l := NormalizeLanguage(language);
    var ctxLabel := LabelLookup(context.status, l);
    if templateKey == PARCEL_BOOKED then
      BookedBuiltWithCode(l, context);
      AssembledCarriesCode(BookedContent(l, context), context.trackingCode, 1, 9, 1);
      Assemble(BookedContent(l, context))
    else if templateKey == PARCEL_STATUS_UPDATED then
      StatusUpdatedBuiltWithCode(l, context, ctxLabel);
      AssembledCarriesCode(StatusUpdatedContent(l, context, ctxLabel), context.trackingCode, 3, 3, if l == EN then 1 else 0);
      Assemble(StatusUpdatedContent(l, context, ctxLabel))
    else Rendered("", "", "")
  }

  /** Piece `k` of a template's e-mail body occurs in the wrapped e-mail. */
  lemma BodyPieceInHtml(body: seq<string>, k: int)
    requires 0 <= k < |body|
    ensures Contains(WrapEmailBody(Join(body)), body[k])
  {
    JoinContainsPiece(body, k);
    MiddleOfThree(WrapHead, Join(body), WrapTail, body[k]);
  }

  /** What occurs in the middle piece of a three-piece literal occurs in it. */
  lemma MiddleOfThree(a: string, m: string, b: string, t: string)
    requires Contains(m, t)
    ensures Contains(Join([a, m, b]), t)
  {
    assert [a, m, b][1..] == [m, b] && [m, b][1..] == [b] && [b][1..] == [];
    assert Join([b]) == b;
    assert Join([m, b]) == m + b;
    assert Join([a, m, b]) == a + (m + b);
    assert a + (m + b) == a + m + b;
    ContainsWidened(a, m, b, t);
  }

  /** Every channel of the message contains the tracking code. */
  predicate CarriesCode(r: Rendered, code: string) {
    Contains(r.emailSubject, code) && Contains(r.emailHtml, code) && Contains(r.smsText, code)
  }

  /** Each channel of a built message holds a non-empty fixed piece and the
      tracking code. */
  predicate BuiltWithCode(c: Content, code: string, s: int, h: int, m: int) {
    0 <= s < |c.subject| && 0 <= h < |c.body| && 0 <= m < |c.sms| &&
    c.subject[s] == code && c.body[h] == code && c.sms[m] == code &&
    |c.sms| >= 4 && c.subject[0] != "" && c.body[0] != "" && c.sms[|c.sms| - 4] != ""
  }

  /** A built message with the code in every channel renders into non-empty
      strings that all contain the code. */
  lemma AssembledCarriesCode(c: Content, code: string, s: int, h: int, m: int)
    requires BuiltWithCode(c, code, s, h, m)
    ensures var r := Assemble(c);
      r.emailSubject != "" && r.emailHtml != "" && r.smsText != "" && CarriesCode(r, code)
  {
    PiecesMakeNonEmpty(c.subject, code, s, 0);
    BodyPiecesMakeNonEmpty(c.body, code, h);
    PiecesMakeNonEmpty(c.sms, code, m, |c.sms| - 4);
  }

  /** A literal holding `code` and a non-empty piece is non-empty and holds `code`. */
  lemma PiecesMakeNonEmpty(ps: seq<string>, code: string, k: int, j: int)
    requires 0 <= k < |ps| && ps[k] == code && 0 <= j < |ps| && ps[j] != ""
    ensures Join(ps) != "" && Contains(Join(ps), code)
  {
    JoinContainsPiece(ps, k);
    JoinContainsPiece(ps, j);
    ContainsShorter(Join(ps), ps[j]);
  }

  /** The same for a wrapped e-mail body whose first piece is non-empty. */
  lemma BodyPiecesMakeNonEmpty(body: seq<string>, code: string, k: int)
    requires 0 <= k < |body| && body[k] == code && body[0] != ""
    ensures WrapEmailBody(Join(body)) != "" && Contains(WrapEmailBody(Join(body)), code)
  {
    BodyPieceInHtml(body, k);
    BodyPieceInHtml(body, 0);
    ContainsShorter(WrapEmailBody(Join(body)), body[0]);
  }

  /** Where the booking template puts the tracking code. */
  lemma BookedBuiltWithCode(l: Language, ctx: RenderContext)
    ensures BuiltWithCode(BookedContent(l, ctx), ctx.trackingCode, 1, 9, 1)
  {
  }

  /** Where the status-update template puts the tracking code. */
  lemma StatusUpdatedBuiltWithCode(l: Language, ctx: RenderContext, looked: Option<string>)
    ensures BuiltWithCode(StatusUpdatedContent(l, ctx, looked), ctx.trackingCode, 3, 3, if l == EN then 1 else 0)
  {
  }

  /** A status update shows the status as `getStatusLabel` names it, in the
      subject, the e-mail body and the SMS. */
  lemma StatusUpdateShowsLabel(language: Option<string>, ctx: RenderContext)
    ensures var r := Render(PARCEL_STATUS_UPDATED, language, ctx);
      var shown := GetStatusLabel(ctx.status, language);
      Contains(r.emailSubject, shown) && Contains(r.emailHtml, shown) && Contains(r.smsText, shown)
  {
    var l := NormalizeLanguage(language);
    var looked := LabelLookup(ctx.status, l);
    assert TemplateLabel(looked, ctx.status, l) == GetStatusLabel(ctx.status, language);
    LabelInEveryChannel(l, ctx, looked);
  }

  /** The status-update builder puts its label in all three channels. */
  lemma LabelInEveryChannel(l: Language, ctx: RenderContext, looked: Option<string>)
    ensures var r := Assemble(StatusUpdatedContent(l, ctx, looked));
      var shown := TemplateLabel(looked, ctx.status, l);
      Contains(r.emailSubject, shown) && Contains(r.emailHtml, shown) && Contains(r.smsText, shown)
  {
    var c := StatusUpdatedContent(l, ctx, looked);
    var shown := TemplateLabel(looked, ctx.status, l);
    assert c.subject[1] == shown && c.body[5] == shown && c.sms[if l == EN then 3 else 2] == shown;
    JoinContainsPiece(c.subject, 1);
    BodyPieceInHtml(c.body, 5);
    JoinContainsPiece(c.sms, if l == EN then 3 else 2);
  }

  /** The last piece of a template literal can be swapped on its own. */
  lemma JoinLastSwapped(ps: seq<string>, qs: seq<string>)
    requires |ps| == |qs| > 0 && ps[..|ps| - 1] == qs[..|qs| - 1]
    ensures Join(ps) == Join(qs[..|qs| - 1]) + ps[|ps| - 1]
  {
    var front := qs[..|qs| - 1];
    assert ps == front + [ps[|ps| - 1]];
    JoinAppend(front, ps[|ps| - 1]);
  }

  /** A non-empty note ends the SMS after the note prefix and gets its own
      paragraph in the e-mail; the SMS is otherwise the one without a note. */
  lemma StatusUpdateShowsNote(language: Option<string>, ctx: RenderContext, n: string)
    requires n != ""
    ensures var l := NormalizeLanguage(language);
      var r := Render(PARCEL_STATUS_UPDATED, language, ctx.(note := Some(n)));
      r.smsText == Render(PARCEL_STATUS_UPDATED, language, ctx.(note := None)).smsText + NotePrefix(l) + n &&
      Contains(r.emailHtml, "<p>" + NotePrefix(l) + n + "</p>")
  {
    var l := NormalizeLanguage(language);
    var looked := LabelLookup(ctx.status, l);
    NoteEndsSms(l, ctx, looked, n);
    NoteParagraphInHtml(l, ctx, looked, n);
  }

  /** The note is the last piece of the status-update SMS. */
  lemma NoteEndsSms(l: Language, ctx: RenderContext, looked: Option<string>, n: string)
    requires n != ""
    ensures Join(StatusUpdatedContent(l, ctx.(note := Some(n)), looked).sms) ==
            Join(StatusUpdatedContent(l, ctx.(note := None), looked).sms) + NotePrefix(l) + n
  {
    var c := StatusUpdatedContent(l, ctx.(note := Some(n)), looked);
    var d := StatusUpdatedContent(l, ctx.(note := None), looked);
    assert c.sms[|c.sms| - 1] == NotePrefix(l) + n;
    assert d.sms[|d.sms| - 1] == "";
    JoinLastSwapped(c.sms, d.sms);
    JoinLastSwapped(d.sms, d.sms);
  }

  /** A non-empty note gets its own paragraph in the status-update e-mail. */
  lemma NoteParagraphInHtml(l: Language, ctx: RenderContext, looked: Option<string>, n: string)
    requires n != ""
    ensures Contains(Assemble(StatusUpdatedContent(l, ctx.(note := Some(n)), looked)).emailHtml,
                     "<p>" + NotePrefix(l) + n + "</p>")
  {
    var c := StatusUpdatedContent(l, ctx.(note := Some(n)), looked);
    assert c.body[|c.body| - 2] == "<p>" + NotePrefix(l) + n + "</p>";
    BodyPieceInHtml(c.body, |c.body| - 2);
  }

  /** An empty note is treated exactly like a missing one. */
  lemma EmptyNoteIsNoNote(language: Option<string>, ctx: RenderContext)
    ensures Render(PARCEL_STATUS_UPDATED, language, ctx.(note := Some(""))) ==
      Render(PARCEL_STATUS_UPDATED, language, ctx.(note := None))
  {
    var l := NormalizeLanguage(language);
    assert NoteText(ctx.(note := Some("")), l) == NoteText(ctx.(note := None), l);
  }

  /** The booking message gives the scheduled pickup time when there is one
      and promises a notification on assignment otherwise, on both channels. */
  lemma BookedShowsSchedule(language: Option<string>, ctx: RenderContext)
    ensures var l := NormalizeLanguage(language);
      var r := Render(PARCEL_BOOKED, language, ctx);
      (ctx.scheduledPickupAt.Some? ==>
        var shown := SchedulePrefix(l) + FormatDateTime(ctx.scheduledPickupAt.value);
        Contains(r.emailHtml, shown) && Contains(r.smsText, shown)) &&
      (ctx.scheduledPickupAt.None? ==>
        Contains(r.emailHtml, UnassignedText(l)) && Contains(r.smsText, UnassignedText(l)))
  {
    ScheduleInBothChannels(NormalizeLanguage(language), ctx);
  }

  /** The booking builder puts the schedule sentence in the e-mail and the SMS. */
  lemma ScheduleInBothChannels(l: Language, ctx: RenderContext)
    ensures var r := Assemble(BookedContent(l, ctx));
      Contains(r.emailHtml, ScheduleText(ctx, l)) && Contains(r.smsText, ScheduleText(ctx, l))
  {
    ScheduleInHtml(l, ctx);
    ScheduleInSms(l, ctx);
  }

  lemma ScheduleInHtml(l: Language, ctx: RenderContext)
    ensures Contains(WrapEmailBody(Join(BookedContent(l, ctx).body)), ScheduleText(ctx, l))
  {
    SchedulePiece(l, ctx);
    BodyPieceInHtml(BookedContent(l, ctx).body, 3);
  }

  /** The schedule sentence is the fourth piece of the booking e-mail body. */
  lemma SchedulePiece(l: Language, ctx: RenderContext)
    ensures |BookedContent(l, ctx).body| > 3 && BookedContent(l, ctx).body[3] == ScheduleText(ctx, l)
  {
  }

  lemma ScheduleInSms(l: Language, ctx: RenderContext)
    ensures Contains(Join(BookedContent(l, ctx).sms), ScheduleText(ctx, l))
  {
    var c := BookedContent(l, ctx);
    assert c.sms[3] == ScheduleText(ctx, l);
    JoinContainsPiece(c.sms, 3);
  }

  /** Only the English status update mentions the next milestone: in English a
      non-empty `eta` gets its own paragraph, in Bengali `eta` changes nothing. */
  lemma EtaOnlyInEnglish(language: Option<string>, ctx: RenderContext)
    ensures var l := NormalizeLanguage(language);
      var r := Render(PARCEL_STATUS_UPDATED, language, ctx);
      (l == EN && Truthy(ctx.eta) ==> Contains(r.emailHtml, "<p>Next milestone: " + ctx.eta.value + "</p>")) &&
      (l == BN ==> r == Render(PARCEL_STATUS_UPDATED, language, ctx.(eta := None)))
  {
    var l := NormalizeLanguage(language);
    if l == EN {
      BodyPieceInHtml(StatusUpdatedContent(l, ctx, LabelLookup(ctx.status, l)).body, 7);
    }
  }
}
