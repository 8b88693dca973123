/**
 * The notification sent to the webhook and the publisher that keeps at most
 * one live webhook message up to date.
 *
 * The network is replaced by parameters: what the edit (`PATCH`) request and
 * the create (`POST ?wait=true`) request would answer. The persisted metadata
 * file is the `metadata` field of a `Publisher`.
 */
module Notifier {
  import opened Wrappers
  import opened Strings
  import opened Money
  import opened Sales
  import opened Aggregation
  import opened Table

  // ---------------------------------------------------------------------------
  // The embed

  datatype Field = Field(name: string, value: string, inline: bool)

  datatype Embed = Embed(
    title: string,
    color: int,
    description: string,
    fields: seq<Field>,
    footer: string,
    timestamp: string)

  const Title := "\U{1F4CA} Painel de Vendas"
  const DarkColor := 0x2b2d31
  const SummaryHeading := "**Resumo Financeiro**"
  const TotalPrefix := "\U{1F4B0} Total Geral: **R$ "
  const ProfitPrefix := "\U{2705} Lucro L\U{00ED}quido (Entregues): **R$ "
  const OpenPrefix := "\U{23F3} Em Aberto: **R$ "
  const PendingLabel := "\U{23F3} Pendentes ("
  const DeliveredLabel := "\U{2705} \U{00DA}ltimas 5 Entregas"
  const FooterPrefix := "\U{00DA}ltima atualiza\U{00E7}\U{00E3}o: "

  /** One line of the financial summary: a label, the amount with two decimals, and closing bold marks. */
  function AmountLine(prefix: string, cents: int): string
  {
    prefix + FormatCents(cents) + "**"
  }

  /** The description block: heading, overall total, net profit of delivered sales, open (pending) total. */
  function Description(s: Summary): string
  {
    SummaryHeading + "\n" + AmountLine(TotalPrefix, s.total) + "\n" + AmountLine(ProfitPrefix, s.netProfit)
      + "\n" + AmountLine(OpenPrefix, s.pendingTotal)
  }

  /**
   * The embed for the current sale list. The local-time text and the ISO
   * timestamp of the moment of sending are parameters.
   */
  function BuildEmbed(sales: seq<Sale>, localTime: string, isoTime: string): Embed
  {
    var s := Summarize(sales);
    Embed(
      Title,
      DarkColor,
      Description(s),
      [ Field(PendingLabel + NatToDecimal(|s.pending|) + ")", FormatTable(s.pending), false),
        Field(DeliveredLabel, FormatTable(s.latestDelivered), false) ],
      FooterPrefix + localTime,
      isoTime)
  }

  /** Reads the amount back from a summary line that starts with `prefix`. */
  function ReadAmount(line: string, prefix: string): Option<int>
  {
    if |line| >= |prefix| + 2 && line[..|prefix|] == prefix && line[|line| - 2..] == "**"
    then ParseCents(line[|prefix|..|line| - 2])
    else None
  }

  /** Reads the count back from the pending field's title. */
  function ReadCount(title: string): Option<nat>
  {
    if |title| >= |PendingLabel| + 1 && title[..|PendingLabel|] == PendingLabel && title[|title| - 1] == ')'
       && Canonical(title[|PendingLabel|..|title| - 1])
    then Some(DecimalValue(title[|PendingLabel|..|title| - 1]))
    else None
  }

  lemma ReadAmountLine(prefix: string, cents: int)
    ensures ReadAmount(AmountLine(prefix, cents), prefix) == Some(cents)
  {
    var line := AmountLine(prefix, cents);
    assert line[..|prefix|] == prefix;
    assert line[|line| - 2..] == "**";
    assert line[|prefix|..|line| - 2] == FormatCents(cents);
    CentsRoundTrip(cents);
  }

  lemma AmountLinePlain(prefix: string, cents: int)
    requires NoNewline(prefix)
    ensures NoNewline(AmountLine(prefix, cents))
  {
  }

  lemma SplitFourLines(h: string, a: string, b: string, c: string)
    requires NoNewline(h) && NoNewline(a) && NoNewline(b) && NoNewline(c)
    ensures SplitLines(h + "\n" + a + "\n" + b + "\n" + c) == [h, a, b, c]
  {
    var lines := [h, a, b, c];
    assert JoinLines(lines) == h + "\n" + a + "\n" + b + "\n" + c by {
      assert lines[1..] == [a, b, c] && [a, b, c][1..] == [b, c] && [b, c][1..] == [c];
      assert JoinLines([b, c]) == b + "\n" + c;
      assert JoinLines([a, b, c]) == a + "\n" + (b + "\n" + c);
    }
    SplitJoin(lines);
  }

  /** The description is four lines: the heading and the three amount lines. */
  lemma DescriptionLines(s: Summary)
    ensures SplitLines(Description(s))
         == [SummaryHeading, AmountLine(TotalPrefix, s.total), AmountLine(ProfitPrefix, s.netProfit),
             AmountLine(OpenPrefix, s.pendingTotal)]
  {
    var a, b, c := AmountLine(TotalPrefix, s.total), AmountLine(ProfitPrefix, s.netProfit), AmountLine(OpenPrefix, s.pendingTotal);
    AmountLinePlain(TotalPrefix, s.total);
    AmountLinePlain(ProfitPrefix, s.netProfit);
    AmountLinePlain(OpenPrefix, s.pendingTotal);
    SplitFourLines(SummaryHeading, a, b, c);
  }

  /**
   * The description reads back, line by line, as the heading and the three
   * amounts: the overall total, the net profit and the pending total.
   */
  lemma DescriptionReadsBack(s: Summary)
    ensures |SplitLines(Description(s))| == 4
    ensures SplitLines(Description(s))[0] == SummaryHeading
    ensures ReadAmount(SplitLines(Description(s))[1], TotalPrefix) == Some(s.total)
    ensures ReadAmount(SplitLines(Description(s))[2], ProfitPrefix) == Some(s.netProfit)
    ensures ReadAmount(SplitLines(Description(s))[3], OpenPrefix) == Some(s.pendingTotal)
  {
    DescriptionLines(s);
    ReadAmountLine(TotalPrefix, s.total);
    ReadAmountLine(ProfitPrefix, s.netProfit);
    ReadAmountLine(OpenPrefix, s.pendingTotal);
  }

  /**
   * The embed's description reads back as the figures of the sale list itself:
   * the overall total, the net profit of the delivered sales and the pending total.
   */
  lemma EmbedDescriptionReadsBack(sales: seq<Sale>, localTime: string, isoTime: string)
    ensures |SplitLines(BuildEmbed(sales, localTime, isoTime).description)| == 4
    ensures ReadAmount(SplitLines(BuildEmbed(sales, localTime, isoTime).description)[1], TotalPrefix)
         == Some(SumValues(sales))
    ensures ReadAmount(SplitLines(BuildEmbed(sales, localTime, isoTime).description)[2], ProfitPrefix)
         == Some(NetProfit(sales))
    ensures ReadAmount(SplitLines(BuildEmbed(sales, localTime, isoTime).description)[3], OpenPrefix)
         == Some(SumValues(PendingSales(sales)))
  {
    var s := Summarize(sales);
    assert BuildEmbed(sales, localTime, isoTime).description == Description(s);
    DescriptionReadsBack(s);
  }

  /** The pending field's title reads back as the count written into it. */
  lemma PendingTitleReadsBack(n: nat)
    ensures ReadCount(PendingLabel + NatToDecimal(n) + ")") == Some(n)
  {
    var digits := NatToDecimal(n);
    var title := PendingLabel + digits + ")";
    DecimalRoundTrip(n);
    assert title[..|PendingLabel|] == PendingLabel;
    assert title[|PendingLabel|..|title| - 1] == digits;
  }

  /**
   * What the embed reports: two fields; the first titled with the number of
   * pending sales and listing them in input order; the second listing at most
   * five delivered sales, the most recent first.
   */
  lemma EmbedReports(sales: seq<Sale>, localTime: string, isoTime: string)
    ensures |BuildEmbed(sales, localTime, isoTime).fields| == 2
    ensures ReadCount(BuildEmbed(sales, localTime, isoTime).fields[0].name) == Some(|PendingSales(sales)|)
    ensures BuildEmbed(sales, localTime, isoTime).fields[0].value == FormatTable(PendingSales(sales))
    ensures BuildEmbed(sales, localTime, isoTime).fields[1].value
         == FormatTable(LatestDelivered(DeliveredSales(sales)))
    ensures |LatestDelivered(DeliveredSales(sales))| == if |DeliveredSales(sales)| < 5 then |DeliveredSales(sales)| else 5
  {
    var s := Summarize(sales);
    assert s.pending == PendingSales(sales) && s.latestDelivered == LatestDelivered(DeliveredSales(sales));
    PendingTitleReadsBack(|s.pending|);
  }

  // ---------------------------------------------------------------------------
  // The publisher

  /** The persisted metadata: the tracked message id and whatever other fields the file holds. */
  datatype Metadata = Metadata(discordMessageId: Option<string>, others: map<string, string>)

  /** What the edit request answered: success, or an error with the HTTP status of its response, if any. */
  datatype EditOutcome = EditOk | EditError(responseStatus: Option<int>)

  /** What the create request answered: a response whose body may carry an id, or an error. */
  datatype CreateOutcome = CreateOk(returnedId: Option<string>) | CreateError

  /** The requests sent to the webhook. */
  datatype Request = Patch(messageId: string, embed: Embed) | Post(embed: Embed)

  /** How a publish attempt ended; every failure is only logged. */
  datatype Outcome = NotConfigured | Edited | Created(saved: bool) | Failed

  /** HTTP 404 Not Found (section 15.5.5 of RFC 9110). */
  const NotFound := 404

  /** A JavaScript string is truthy when it is not empty. */
  predicate Truthy(id: Option<string>)
  {
    id.Some? && id.value != ""
  }

  /** The message the stored metadata tracks, if any: an empty id counts as none. */
  function TrackedId(m: Metadata): Option<string>
  {
    if Truthy(m.discordMessageId) then m.discordMessageId else None
  }

  /** A create request is made when no message is tracked or the tracked one is gone. */
  predicate FallsBackToCreate(m: Metadata, edit: EditOutcome)
  {
    TrackedId(m).None? || edit == EditError(Some(NotFound))
  }

  /** The id a create response hands over for saving, if it carries a non-empty one. */
  function SavedId(create: CreateOutcome): Option<string>
  {
    if create.CreateOk? && Truthy(create.returnedId) then create.returnedId else None
  }

  /** The requests one publish sends. */
  function Requests(m: Metadata, edit: EditOutcome, embed: Embed): seq<Request>
  {
    (if TrackedId(m).Some? then [Patch(TrackedId(m).value, embed)] else [])
      + (if FallsBackToCreate(m, edit) then [Post(embed)] else [])
  }

  /** The metadata after one publish: only a created message with an id changes it. */
  function AfterPublish(m: Metadata, edit: EditOutcome, create: CreateOutcome): Metadata
  {
    if FallsBackToCreate(m, edit) && SavedId(create).Some?
    then m.(discordMessageId := SavedId(create))
    else m
  }

  function PublishOutcome(m: Metadata, edit: EditOutcome, create: CreateOutcome): Outcome
  {
    if !FallsBackToCreate(m, edit) then (if edit.EditOk? then Edited else Failed)
    else if create.CreateOk? then Created(SavedId(create).Some?)
    else Failed
  }

  class Publisher {
    /** The configured webhook address; empty when none is configured. */
    const webhookUrl: string
    /** The persisted metadata file. */
    var metadata: Metadata

    constructor (webhookUrl: string, stored: Metadata)
      ensures this.webhookUrl == webhookUrl && metadata == stored
    {
      this.webhookUrl := webhookUrl;
      metadata := stored;
    }

    /**
     * Edits the tracked message; when there is none, or it is gone (404),
     * creates one and saves its id, keeping every other metadata field.
     */
    method Publish(embed: Embed, edit: EditOutcome, create: CreateOutcome) returns (calls: seq<Request>, outcome: Outcome)
      modifies this
      ensures calls == Requests(old(metadata), edit, embed)
      ensures metadata == AfterPublish(old(metadata), edit, create)
      ensures outcome == PublishOutcome(old(metadata), edit, create)
    {
      calls := [];
      var stored := metadata;
      var messageId := stored.discordMessageId;
      if Truthy(messageId) {
        calls := calls + [Patch(messageId.value, embed)];
        match edit
        case EditOk =>
          outcome := Edited;
          return;
        case EditError(status) =>
          if status == Some(NotFound) {
            messageId := None;
          } else {
            outcome := Failed;
            return;
          }
      }
      if !Truthy(messageId) {
        calls := calls + [Post(embed)];
        match create
        case CreateOk(id) =>
          if Truthy(id) {
            metadata := stored.(discordMessageId := id);
          }
          outcome := Created(Truthy(id));
        case CreateError =>
          outcome := Failed;
      }
    }

    /**
     * Sends the current summary: a no-op without a configured webhook,
     * otherwise builds the embed and publishes it.
     */
    method NotifyDiscord(sales: seq<Sale>, localTime: string, isoTime: string, edit: EditOutcome, create: CreateOutcome)
      returns (calls: seq<Request>, outcome: Outcome)
      modifies this
      ensures webhookUrl == "" ==> calls == [] && outcome == NotConfigured && metadata == old(metadata)
      ensures webhookUrl != "" ==>
        && calls == Requests(old(metadata), edit, BuildEmbed(sales, localTime, isoTime))
        && metadata == AfterPublish(old(metadata), edit, create)
        && outcome == PublishOutcome(old(metadata), edit, create)
    {
      if webhookUrl == "" {
        calls, outcome := [], NotConfigured;
        return;
      }
      var embed := BuildEmbed(sales, localTime, isoTime);
      calls, outcome := Publish(embed, edit, create);
    }
  }

  // ---------------------------------------------------------------------------
  // What one publish does

  /** Every publish sends one or two requests, and at most one create. */
  lemma {:induction false} RequestBounds(m: Metadata, edit: EditOutcome, embed: Embed)
    ensures 1 <= |Requests(m, edit, embed)| <= 2
    ensures |Requests(m, edit, embed)| == 2 <==> TrackedId(m).Some? && edit == EditError(Some(NotFound))
    ensures forall i :: 0 <= i < |Requests(m, edit, embed)| - 1 ==> Requests(m, edit, embed)[i].Patch?
  {
  }

  /** A successful edit is the only request, and nothing is saved. */
  lemma EditSuccessKeepsState(m: Metadata, create: CreateOutcome, embed: Embed)
    requires TrackedId(m).Some?
    ensures Requests(m, EditOk, embed) == [Patch(m.discordMessageId.value, embed)]
    ensures AfterPublish(m, EditOk, create) == m
    ensures PublishOutcome(m, EditOk, create) == Edited
  {
  }

  /** An edit failing for any reason but 404 aborts: no create, nothing saved. */
  lemma OtherEditErrorAborts(m: Metadata, status: Option<int>, create: CreateOutcome, embed: Embed)
    requires TrackedId(m).Some? && status != Some(NotFound)
    ensures Requests(m, EditError(status), embed) == [Patch(m.discordMessageId.value, embed)]
    ensures AfterPublish(m, EditError(status), create) == m
    ensures PublishOutcome(m, EditError(status), create) == Failed
  {
  }

  /**
   * A vanished message (404) is followed by exactly one create. A returned id
   * replaces the tracked one and nothing else; without one, the old id stays
   * stored.
   */
  lemma NotFoundRecreates(m: Metadata, create: CreateOutcome, embed: Embed)
    requires TrackedId(m).Some?
    ensures Requests(m, EditError(Some(NotFound)), embed) == [Patch(m.discordMessageId.value, embed), Post(embed)]
    ensures SavedId(create).Some? ==>
      AfterPublish(m, EditError(Some(NotFound)), create) == Metadata(SavedId(create), m.others)
    ensures SavedId(create).None? ==>
      AfterPublish(m, EditError(Some(NotFound)), create).discordMessageId == m.discordMessageId
    ensures PublishOutcome(m, EditError(Some(NotFound)), create)
         == if create.CreateOk? then Created(SavedId(create).Some?) else Failed
  {
  }

  /** With no tracked message (absent or empty id) the publish is one create. */
  lemma UntrackedCreates(m: Metadata, edit: EditOutcome, create: CreateOutcome, embed: Embed)
    requires m.discordMessageId == None || m.discordMessageId == Some("")
    ensures Requests(m, edit, embed) == [Post(embed)]
    ensures AfterPublish(m, edit, create).discordMessageId
         == if SavedId(create).Some? then SavedId(create) else m.discordMessageId
    ensures PublishOutcome(m, edit, create) == if create.CreateOk? then Created(SavedId(create).Some?) else Failed
  {
  }

  /** A publish never touches the other metadata fields, and only ever stores a non-empty id. */
  lemma PublishKeepsOtherFields(m: Metadata, edit: EditOutcome, create: CreateOutcome)
    ensures AfterPublish(m, edit, create).others == m.others
    ensures AfterPublish(m, edit, create).discordMessageId != m.discordMessageId ==>
      Truthy(AfterPublish(m, edit, create).discordMessageId)
  {
  }

  /**
   * The stale id left by a failed recovery: after a 404 and a create that
   * fails or returns no id, the next publish edits the same vanished message
   * again.
   */
  lemma StaleIdIsRetried(m: Metadata, create: CreateOutcome, edit2: EditOutcome, embed: Embed, embed2: Embed)
    requires TrackedId(m).Some? && SavedId(create).None?
    ensures Requests(AfterPublish(m, EditError(Some(NotFound)), create), edit2, embed2)[0]
         == Patch(m.discordMessageId.value, embed2)
  {
  }

  /** After a create that returned an id, the next publish edits that message. */
  lemma CreatedMessageIsEditedNext(m: Metadata, edit: EditOutcome, create: CreateOutcome, edit2: EditOutcome, embed2: Embed)
    requires FallsBackToCreate(m, edit) && SavedId(create).Some?
    ensures Requests(AfterPublish(m, edit, create), edit2, embed2)[0] == Patch(SavedId(create).value, embed2)
  {
  }

  // ---------------------------------------------------------------------------
  // Publishing scenarios, on a fresh publisher

  /** A successful edit leaves the stored id as it was. */
  method EditKeepsTrackedId(embed: Embed) returns (calls: seq<Request>, outcome: Outcome, stored: Option<string>)
    ensures calls == [Patch("M1", embed)] && outcome == Edited
    ensures stored == Some("M1")
  {
    var p := new Publisher("https://example.invalid/webhook", Metadata(Some("M1"), map[]));
    calls, outcome := p.Publish(embed, EditOk, CreateOk(Some("M2")));
    stored := p.metadata.discordMessageId;
  }

  /** A vanished message is replaced, and the new id is stored. */
  method RecoveryStoresNewId(embed: Embed) returns (calls: seq<Request>, outcome: Outcome, stored: Option<string>)
    ensures calls == [Patch("M1", embed), Post(embed)] && outcome == Created(true)
    ensures stored == Some("M2")
  {
    var p := new Publisher("https://example.invalid/webhook", Metadata(Some("M1"), map[]));
    calls, outcome := p.Publish(embed, EditError(Some(NotFound)), CreateOk(Some("M2")));
    stored := p.metadata.discordMessageId;
  }

  /** A failed recovery keeps the stale id, so the next publish tries to edit it again. */
  method FailedRecoveryKeepsStaleId(embed: Embed) returns (first: seq<Request>, second: seq<Request>, stored: Option<string>)
    ensures first == [Patch("M1", embed), Post(embed)]
    ensures second == [Patch("M1", embed)]
    ensures stored == Some("M1")
  {
    var p := new Publisher("https://example.invalid/webhook", Metadata(Some("M1"), map[]));
    var outcome;
    first, outcome := p.Publish(embed, EditError(Some(NotFound)), CreateError);
    second, outcome := p.Publish(embed, EditOk, CreateError);
    stored := p.metadata.discordMessageId;
  }

  /** Without a webhook nothing is sent and nothing is stored, whatever the metadata holds. */
  method UnconfiguredIsNoOp(sales: seq<Sale>, stored: Metadata, edit: EditOutcome, create: CreateOutcome)
    returns (calls: seq<Request>, outcome: Outcome, after: Metadata)
    ensures calls == [] && outcome == NotConfigured && after == stored
  {
    var p := new Publisher("", stored);
    calls, outcome := p.NotifyDiscord(sales, "", "", edit, create);
    after := p.metadata;
  }
}
