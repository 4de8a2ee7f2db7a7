/** The delivery loop's decisions about one clip (delivery/runner.rs), as functions of the clip's record, the
    media length, the upload's answer and the clock. The store methods and the crash protocol both use them. */
module Delivery {
  import opened Queue
  import opened Retry

  const MAX_UPLOAD_BYTES: nat := 50 * 1024 * 1024

  /** Why a clip is refused before any byte is sent; None when it may be uploaded. */
  function Preflight(media: Option<nat>): Option<string> {
    if media.None? then Some("unreadable")
    else if media.value == 0 then Some("zero_length")
    else if media.value > MAX_UPLOAD_BYTES then Some("oversize")
    else None
  }

  /** A clip may be uploaded exactly when it can be read and has between one byte and 50 MiB. */
  lemma MayUploadExactly(media: Option<nat>)
    ensures Preflight(media).None? <==> media.Some? && 1 <= media.value <= 52428800
    ensures Preflight(media) == Some("unreadable") <==> media.None?
    ensures Preflight(media) == Some("zero_length") <==> media == Some(0)
    ensures Preflight(media) == Some("oversize") <==> media.Some? && media.value > 52428800
  {
  }

  datatype Answer = Accepted(taskId: nat, status: ClassifyStatus) | Refused(err: ClientError)

  /** Panics: no retry instant can be computed. The record stays as it is in inflight/. */
  datatype Decision = Finish(entry: Entry) | Requeue(entry: Entry) | Panics(entry: Entry)

  function MarkDelivered(e: Entry, taskId: nat, status: ClassifyStatus, now: Instant): Entry {
    e.(outcome := Some(Delivered), classifyTaskId := Some(taskId), deliveredAt := Some(now),
       lastClassifyStatus := Some(status), lastError := None)
  }

  function MarkUndecodable(e: Entry, now: Instant): Entry {
    e.(outcome := Some(Delivered), classifyTaskId := None, deliveredAt := Some(now),
       lastClassifyStatus := Some(Unknown), lastError := None)
  }

  function MarkUndeliverable(e: Entry, err: LastError, now: Instant): Entry {
    e.(outcome := Some(Undeliverable), deliveredAt := Some(now), lastError := Some(err))
  }

  /** What happens to the clip once the upload has been answered. */
  function AfterUpload(s: Schedule, e: Entry, a: Answer, now: Instant): Decision {
    match a
    case Accepted(taskId, status) => Finish(MarkDelivered(e, taskId, status, now))
    case Refused(err) =>
      if err.UndecodableSuccess? then Finish(MarkUndecodable(e, now))
      else
        var status := if err.Http? then Some(err.status) else None;
        var last := LastError(ErrorKind(err), status);
        var undeliverable := Finish(MarkUndeliverable(e, last, now));
        if ClassifyUploadError(err).Terminal? then undeliverable
        else
          match Next(s, now, e.attempts, e.firstAttemptAt, if err.Http? then err.retryAfter else None)
          case Retry(at) => Requeue(e.(nextAttemptAfter := Some(at), lastError := Some(last)))
          case Exhausted => undeliverable
          case Overflow => Panics(e)
  }

  /** A clip is re-queued only by a transient failure with attempts to spare, and the record written back to
      pending/ keeps its identity, its size and its attempt count. An answer leads to a panic only from such a failure,
      when the retry instant overflows; every other answer ends in a record with an outcome. An accepted upload,
      decodable or not, always ends as Delivered, and only a decodable one leaves a task to poll. */
  lemma AfterUploadDecides(s: Schedule, e: Entry, a: Answer, now: Instant)
    requires !e.IsTerminal()
    ensures var d := AfterUpload(s, e, a, now);
            && d.entry.clipId == e.clipId && d.entry.attempts == e.attempts && d.entry.byteSize == e.byteSize
            && d.entry.capturedAt == e.capturedAt
            && (d.Finish? <==> d.entry.IsTerminal())
            && (d.Requeue? ==> e.attempts < s.maxAttempts && d.entry.nextAttemptAfter.Some?
                               && d.entry.classifyTaskId == e.classifyTaskId)
            && (d.Panics? ==> e.attempts < s.maxAttempts && d.entry == e)
            && (d.Panics? <==>
                  && a.Refused? && ClassifyUploadError(a.err).Transient?
                  && Next(s, now, e.attempts, e.firstAttemptAt, if a.err.Http? then a.err.retryAfter else None).Overflow?)
            && (d.Finish? && d.entry.outcome == Some(Delivered) <==> a.Accepted? || a.err.UndecodableSuccess?)
            && (e.classifyTaskId.None? ==> (d.entry.classifyTaskId.Some? <==> a.Accepted?))
  {
  }

  /** The kind that a record of a failed attempt carries names the class of the failure. */
  predicate KindTells(kind: string, err: ClientError) {
    && (kind == "http_status" <==> err.Http?) && (kind == "network" <==> err.Network?) && (kind == "decode" <==> err.Decode?)
    && (kind == "outbound_disallowed" <==> err.OutboundDisallowed?) && (kind == "clip_open" <==> err.ClipOpen?)
    && (kind == "config" <==> err.CredentialIo? || err.TlsConfig? || err.InvalidUrl?)
  }

  /** The record that each answer leads to, field by field. */
  lemma RecordAfterAnswer(s: Schedule, e: Entry, a: Answer, now: Instant)
    ensures var d := AfterUpload(s, e, a, now);
            && SameClip(e, d.entry) && SameAttempts(e, d.entry) && d.entry.classifyLostAt == e.classifyLostAt
            && (a.Accepted? ==>
                  && d.Finish? && d.entry.outcome == Some(Delivered) && d.entry.deliveredAt == Some(now)
                  && d.entry.classifyTaskId == Some(a.taskId) && d.entry.lastClassifyStatus == Some(a.status)
                  && d.entry.lastError.None? && d.entry.nextAttemptAfter == e.nextAttemptAfter)
            && (a.Refused? && a.err.UndecodableSuccess? ==>
                  && d.Finish? && d.entry.outcome == Some(Delivered) && d.entry.deliveredAt == Some(now)
                  && d.entry.classifyTaskId.None? && d.entry.lastClassifyStatus == Some(Unknown)
                  && d.entry.lastError.None? && d.entry.nextAttemptAfter == e.nextAttemptAfter)
            && (a.Refused? && !a.err.UndecodableSuccess? && d.Finish? ==>
                  && d.entry.outcome == Some(Undeliverable) && d.entry.deliveredAt == Some(now)
                  && d.entry.classifyTaskId == e.classifyTaskId && d.entry.lastClassifyStatus == e.lastClassifyStatus
                  && d.entry.nextAttemptAfter == e.nextAttemptAfter && d.entry.lastError.Some?)
            && (d.Requeue? ==> SameResult(e, d.entry) && d.entry.lastError.Some?)
            && (a.Refused? && (d.Requeue? || (d.Finish? && !a.err.UndecodableSuccess?)) ==>
                  && d.entry.lastError.value.status == (if a.err.Http? then Some(a.err.status) else None)
                  && KindTells(d.entry.lastError.value.kind, a.err))
  {
  }

  /** A Retry-After that an answer carries, in seconds. */
  function AskedFor(a: Answer): real {
    if a.Refused? && a.err.Http? && a.err.retryAfter.Some? then a.err.retryAfter.value else 0.0
  }

  /** When a clip is re-queued, the record names the retry instant: a fifth around the capped exponential of the attempts
      made, and not before the Retry-After, as long as the clock library can hold that span. */
  lemma RequeueInstant(s: Schedule, e: Entry, a: Answer, now: Instant, growth: real)
    requires s.Validated() && 1 <= e.attempts && growth == Pow2(e.attempts - 1) && AfterUpload(s, e, a, now).Requeue?
    ensures var q := AfterUpload(s, e, a, now).entry;
            var cap := if s.initialDelay * growth <= s.maxAttemptDelay then s.initialDelay * growth else s.maxAttemptDelay;
            && q.nextAttemptAfter.Some?
            && var at := q.nextAttemptAfter.value;
               && (AskedFor(a) <= MAX_SPAN_SECS ==> now + 0.8 * cap <= at && now + AskedFor(a) <= at)
               && (AskedFor(a) <= 0.0 ==> at <= now + 1.2 * cap)
               && (0.0 < AskedFor(a) <= MAX_SPAN_SECS ==> at <= now + 1.2 * cap || at == now + AskedFor(a))
               && (AskedFor(a) > MAX_SPAN_SECS ==> at == now + s.maxAttemptDelay)
               && (e.firstAttemptAt.Some? ==> now < e.firstAttemptAt.value + s.maxWallclock)
               && e.attempts < s.maxAttempts
  {
    var floor := if a.err.Http? then a.err.retryAfter else None;
    BaseDelayIsCappedExponential(s, e.attempts, growth);
    DelayBounds(s, now, e.attempts, floor);
    BaseDelayMonotone(s, e.attempts, e.attempts);
  }

  /** Which refusals end a clip's attempts at once, spelled out over the status codes: every informational, redirect and
      client error but 408, 425 and 429, and every server error but 500, 502, 503 and 504; an outbound block, and what is
      wrong with the clip, the credentials or the configuration. Everything else is tried again while the budgets last. */
  lemma RefusalEndsAtOnce(s: Schedule, e: Entry, err: ClientError, now: Instant)
    requires !err.UndecodableSuccess?
    ensures var d := AfterUpload(s, e, Refused(err), now);
            var permanent :=
              if err.Http? then
                || err.status < 200 || 300 <= err.status < 408 || 408 < err.status < 425 || 425 < err.status < 429
                || 429 < err.status < 500 || err.status == 501 || 504 < err.status
              else err.OutboundDisallowed? || err.ClipOpen? || err.CredentialIo? || err.TlsConfig? || err.InvalidUrl?;
            && (permanent ==> d.Finish?)
            && (!permanent ==> (d.Finish? <==>
                  || e.attempts >= s.maxAttempts
                  || (e.firstAttemptAt.Some? && 0.0 <= now - e.firstAttemptAt.value && now - e.firstAttemptAt.value >= s.maxWallclock)
                  || (e.firstAttemptAt.Some? && now < e.firstAttemptAt.value && s.maxWallclock <= 0.0)))
  {
  }
}
