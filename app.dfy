/** app.py: the leads table as a mutable store, and the SMS router that moves
    a phone number through NEW, Q1, Q2, Q3 and on to HOT, WARM or COLD. */
module App {
  import opened PyStr
  import opened Leads
  import opened Scoring

  /** The `QUESTIONS` dictionary. */
  const Questions: map<string, string> := map[
    "Q1" := "What is the *ZIP CODE* for the project location? (This is important for scheduling)",
    "Q2" := "What is the primary **Project Type**? (A: Emergency Repair, B: Full Replacement, C: Estimate/Inspection)",
    "Q3" := "What is your **Timeline** and estimated **Budget**? (E.g., Immediate, $5k-$10k)",
    "Q4" := "Thank you! We have enough information to triage your request. We will be in touch shortly."
  ]

  /** `QUESTIONS` has one entry per stage of the conversation, and no two
      stages ask the same thing. */
  lemma QuestionsDistinct()
    ensures Questions.Keys == {"Q1", "Q2", "Q3", "Q4"}
    ensures forall a, b :: a in Questions && b in Questions && a != b ==> Questions[a] != Questions[b]
  {
  }

  /** The messages the router replies with. */
  datatype Message =
    | Welcome           // to a new phone: the greeting with the ZIP question
    | AskProjectType    // after the ZIP
    | AskTimeline       // after the project type
    | Closing           // after a WARM or COLD classification
    | HotConfirmed(score: int)
    | AlreadyLogged     // to a phone that is already classified

  const WelcomeHead := "Hi there! This is [Contractor Name] regarding your request. "
  const OptOutHint := "Reply STOP to opt-out."
  const HotHead := "\U{1F6A8} HOT LEAD CONFIRMED ("
  const HotTail := ")! [Contractor Name] is sending a technician immediately. You will get a direct call from them shortly."

  /** The text of each reply. */
  function Text(m: Message): string {
    match m
    case Welcome => Join([WelcomeHead, Questions["Q1"], " ", OptOutHint])
    case AskProjectType => Questions["Q2"]
    case AskTimeline => Questions["Q3"]
    case Closing => Questions["Q4"]
    case HotConfirmed(score) => Join([HotHead, IntToString(score) + "/10", HotTail])
    case AlreadyLogged => "Thanks for the follow-up! We've already logged your info and will be in touch."
  }

  /** The greeting asks the ZIP question and says how to opt out. */
  lemma WelcomeAsksForZip()
    ensures Contains(Text(Welcome), Questions["Q1"])
    ensures Contains(Text(Welcome), OptOutHint)
  {
    JoinOccurs([WelcomeHead, Questions["Q1"], " ", OptOutHint], 1);
    JoinOccurs([WelcomeHead, Questions["Q1"], " ", OptOutHint], 3);
  }

  /** The HOT confirmation shows the score out of ten. */
  lemma HotConfirmationShowsScore(score: int)
    ensures Contains(Text(HotConfirmed(score)), IntToString(score) + "/10")
  {
    JoinOccurs([HotHead, IntToString(score) + "/10", HotTail], 1);
  }

  /** Two HOT confirmations read the same only when their scores are the same. */
  lemma HotConfirmationDeterminesScore(a: int, b: int)
    requires Text(HotConfirmed(a)) == Text(HotConfirmed(b))
    ensures a == b
  {
    var sa := IntToString(a);
    var sb := IntToString(b);
    JoinThree(HotHead, sa + "/10", HotTail);
    JoinThree(HotHead, sb + "/10", HotTail);
    CancelPrefix(HotHead, sa + "/10" + HotTail, sb + "/10" + HotTail);
    CancelSuffix(sa + "/10", sb + "/10", HotTail);
    CancelSuffix(sa, sb, "/10");
    IntToStringInjective(a, b);
  }

  /** The opt-out keywords, compared after upper-casing. */
  const OptOutWords := ["STOP", "QUIT", "END"]

  predicate IsOptOut(msg: string) {
    Upper(msg) in OptOutWords
  }

  /** The opt-outs are exactly STOP, QUIT and END with any of their letters in lower case. */
  lemma OptOutWordsExactly(msg: string)
    ensures IsOptOut(msg) <==>
              MatchesIgnoringCase(msg, "STOP") || MatchesIgnoringCase(msg, "QUIT") ||
              MatchesIgnoringCase(msg, "END")
  {
    assert OptOutWords == ["STOP", "QUIT", "END"];
    UpperMatches(msg, "STOP");
    UpperMatches(msg, "QUIT");
    UpperMatches(msg, "END");
  }

  /** A patch that only sets the status. */
  function StatusPatch(s: StoredStatus): Patch {
    Patch(None, None, Some(s), None)
  }

  /** What handling one inbound message does: the new table, the reply
      (`None` when nothing is sent back: an empty response, or the server error
      when the handler raises) and, when the contractor is alerted, the score
      `FORWARD_TO_CONTRACTOR` is called with. */
  datatype Outcome = Outcome(leads: Table, reply: Option<Message>, alert: Option<int>)

  /** From NEW: insert the row and greet. */
  function Greet(leads: Table, phone: string, now: string): Outcome {
    Outcome(Upserted(leads, phone, StatusPatch(Q1), now), Some(Welcome), None)
  }

  /** From Q1: store the ZIP, ask for the project type. */
  function TakeZip(leads: Table, phone: string, msg: string, now: string): Outcome {
    Outcome(Upserted(leads, phone, Patch(Some(msg), None, Some(Q2), None), now), Some(AskProjectType), None)
  }

  /** From Q2: store the project type, ask for timeline and budget. */
  function TakeProjectType(leads: Table, phone: string, msg: string, now: string): Outcome {
    Outcome(Upserted(leads, phone, Patch(None, Some(msg), Some(Q3), None), now), Some(AskTimeline), None)
  }

  /** From Q3: score the final answer, write status and score in one patch,
      and on HOT confirm and alert the contractor. A score outside the 64-bit
      range makes that write raise: nothing is stored, and the handler fails
      before it replies or alerts. */
  function Qualify(leads: Table, phone: string, msg: string,
                   oracle: Prompt -> OracleReply, now: string): Outcome
  {
    var (score, cls) := CalculateScore(leads, phone, msg, oracle);
    var after := Upserted(leads, phone, Patch(None, None, Some(cls), Some(score)), now);
    if !FitsInteger(score) then
      Outcome(leads, None, None)
    else if cls == Hot then
      Outcome(after, Some(HotConfirmed(score)), Some(score))
    else
      Outcome(after, Some(Closing), None)
  }

  /** `sms_reply` on a message `body` from `phone`, with the table `leads`, the
      scoring oracle and the current time. */
  function Respond(leads: Table, phone: string, body: string,
                   oracle: Prompt -> OracleReply, now: string): (o: Outcome)
  {
    var msg := Strip(body);
    if IsOptOut(msg) then Outcome(leads, None, None)
    else
      match StatusOf(leads, phone)
      case New => Greet(leads, phone, now)
      case Q1 => TakeZip(leads, phone, msg, now)
      case Q2 => TakeProjectType(leads, phone, msg, now)
      case Q3 => Qualify(leads, phone, msg, oracle, now)
      case _ => Outcome(leads, Some(AlreadyLogged), None)
  }

  /** STOP, QUIT or END, in any case and with any surrounding whitespace, gives
      an empty reply and writes nothing, whatever the phone's status. */
  lemma OptOutIsNoOp(leads: Table, phone: string, body: string,
                     oracle: Prompt -> OracleReply, now: string)
    requires IsOptOut(Strip(body))
    ensures Respond(leads, phone, body, oracle, now) == Outcome(leads, None, None)
  {
  }

  /** The first message from an unseen phone inserts one row, status Q1 stamped
      with the current time, and replies with the greeting and the ZIP question. */
  lemma FirstMessageInserts(leads: Table, phone: string, body: string,
                            oracle: Prompt -> OracleReply, now: string)
    requires phone !in leads && !IsOptOut(Strip(body))
    ensures Respond(leads, phone, body, oracle, now) ==
            Outcome(leads[phone := Lead(None, Q1, None, None, now)], Some(Welcome), None)
  {
  }

  /** At Q1 the stripped message becomes the ZIP and the status moves to Q2;
      nothing else in the table changes. */
  lemma ZipAnswerStored(leads: Table, phone: string, body: string,
                        oracle: Prompt -> OracleReply, now: string)
    requires StatusOf(leads, phone) == Q1 && !IsOptOut(Strip(body))
    ensures Respond(leads, phone, body, oracle, now) ==
            Outcome(leads[phone := leads[phone].(zipCode := Some(Strip(body)), status := Q2)],
                    Some(AskProjectType), None)
  {
  }

  /** At Q2 the stripped message becomes the project type and the status moves
      to Q3; nothing else in the table changes. */
  lemma ProjectTypeStored(leads: Table, phone: string, body: string,
                          oracle: Prompt -> OracleReply, now: string)
    requires StatusOf(leads, phone) == Q2 && !IsOptOut(Strip(body))
    ensures Respond(leads, phone, body, oracle, now) ==
            Outcome(leads[phone := leads[phone].(projectType := Some(Strip(body)), status := Q3)],
                    Some(AskTimeline), None)
  {
  }

  /** The final step on a phone at Q3, as a function of the stripped answer:
      one write sets both the status and the score, or, for a score that does
      not fit an SQLite INTEGER, nothing is written and nothing is sent. */
  lemma QualifyWrites(leads: Table, phone: string, msg: string,
                      oracle: Prompt -> OracleReply, now: string)
    requires StatusOf(leads, phone) == Q3
    ensures var sc := CalculateScore(leads, phone, msg, oracle);
            var o := Qualify(leads, phone, msg, oracle, now);
            (!FitsInteger(sc.0) ==> o == Outcome(leads, None, None)) &&
            (FitsInteger(sc.0) ==>
               o.leads == leads[phone := leads[phone].(status := Classify(sc.0), qualScore := Some(sc.0))] &&
               (sc.1 == Hot ==> o.reply == Some(HotConfirmed(sc.0)) && o.alert == Some(sc.0)) &&
               (sc.1 != Hot ==> o.reply == Some(Closing) && o.alert == None))
  {
    var sc := CalculateScore(leads, phone, msg, oracle);
    var after := Upserted(leads, phone, Patch(None, None, Some(sc.1), Some(sc.0)), now);
    assert FitsInteger(sc.0) ==> after == leads[phone := leads[phone].(status := Classify(sc.0), qualScore := Some(sc.0))];
  }

  /** At Q3 one write sets both the status and the score, the status being the
      classification of that score; a HOT lead gets the confirmation and the
      contractor is alerted, a WARM or COLD lead gets the closing message and no
      alert goes out. A score that does not fit an SQLite INTEGER changes
      nothing, and no reply and no alert go out. */
  lemma FinalAnswerClassifies(leads: Table, phone: string, body: string,
                              oracle: Prompt -> OracleReply, now: string)
    requires StatusOf(leads, phone) == Q3 && !IsOptOut(Strip(body))
    ensures var sc := CalculateScore(leads, phone, Strip(body), oracle);
            var o := Respond(leads, phone, body, oracle, now);
            (!FitsInteger(sc.0) ==> o == Outcome(leads, None, None)) &&
            (FitsInteger(sc.0) ==>
               o.leads == leads[phone := leads[phone].(status := Classify(sc.0), qualScore := Some(sc.0))] &&
               (sc.1 == Hot ==> o.reply == Some(HotConfirmed(sc.0)) && o.alert == Some(sc.0)) &&
               (sc.1 != Hot ==> o.reply == Some(Closing) && o.alert == None))
  {
    assert Respond(leads, phone, body, oracle, now) == Qualify(leads, phone, Strip(body), oracle, now);
    QualifyWrites(leads, phone, Strip(body), oracle, now);
  }

  /** A contractor alert goes out exactly when a lead at Q3 is classified HOT. */
  lemma AlertOnlyWhenHot(leads: Table, phone: string, body: string,
                         oracle: Prompt -> OracleReply, now: string)
    ensures var o := Respond(leads, phone, body, oracle, now);
            o.alert.Some? <==>
              !IsOptOut(Strip(body)) && StatusOf(leads, phone) == Q3 && StatusOf(o.leads, phone) == Hot
  {
    if IsOptOut(Strip(body)) {
      OptOutIsNoOp(leads, phone, body, oracle, now);
    } else {
      match StatusOf(leads, phone)
      case New => FirstMessageInserts(leads, phone, body, oracle, now);
      case Q1 => ZipAnswerStored(leads, phone, body, oracle, now);
      case Q2 => ProjectTypeStored(leads, phone, body, oracle, now);
      case Q3 => FinalAnswerClassifies(leads, phone, body, oracle, now);
      case _ => ClassifiedIsAbsorbing(leads, phone, body, oracle, now);
    }
  }

  /** A classified lead is left as it is: the table does not change, no alert
      goes out, and the reply is the acknowledgement (or none for an opt-out). */
  lemma ClassifiedIsAbsorbing(leads: Table, phone: string, body: string,
                              oracle: Prompt -> OracleReply, now: string)
    requires IsTerminal(StatusOf(leads, phone))
    ensures var o := Respond(leads, phone, body, oracle, now);
            o.leads == leads && o.alert == None &&
            o.reply == (if IsOptOut(Strip(body)) then None else Some(AlreadyLogged))
  {
  }

  /** An alert carries the score just stored for the phone, whose row is HOT. */
  lemma AlertCarriesStoredScore(leads: Table, phone: string, body: string,
                                oracle: Prompt -> OracleReply, now: string)
    ensures var o := Respond(leads, phone, body, oracle, now);
            o.alert.Some? ==>
              phone in o.leads && o.leads[phone].status == Hot && o.leads[phone].qualScore == o.alert
  {
    if !IsOptOut(Strip(body)) && StatusOf(leads, phone) == Q3 {
      FinalAnswerClassifies(leads, phone, body, oracle, now);
    }
  }

  /** One message never moves any phone backward along NEW, Q1, Q2, Q3,
      classified, never drops a row, and leaves a classified row as it was. */
  lemma RespondNeverBackward(leads: Table, phone: string, body: string,
                             oracle: Prompt -> OracleReply, now: string, q: string)
    ensures var after := Respond(leads, phone, body, oracle, now).leads;
            (q in leads ==> q in after) &&
            Rank(StatusOf(after, q)) >= Rank(StatusOf(leads, q)) &&
            (q in leads && IsTerminal(leads[q].status) ==> after[q] == leads[q])
  {
    if IsOptOut(Strip(body)) {
      OptOutIsNoOp(leads, phone, body, oracle, now);
    } else {
      match StatusOf(leads, phone)
      case New => FirstMessageInserts(leads, phone, body, oracle, now);
      case Q1 => ZipAnswerStored(leads, phone, body, oracle, now);
      case Q2 => ProjectTypeStored(leads, phone, body, oracle, now);
      case Q3 => FinalAnswerClassifies(leads, phone, body, oracle, now);
      case _ => ClassifiedIsAbsorbing(leads, phone, body, oracle, now);
    }
  }

  /** A row whose collected fields agree with its status: a ZIP from Q2 on, a
      project type from Q3 on, and a score exactly when it is classified, the
      classification being the one that score gives and the score fitting an
      SQLite INTEGER. */
  predicate Consistent(l: Lead) {
    (l.qualScore.Some? ==> FitsInteger(l.qualScore.value)) &&
    (Rank(l.status) >= 2 ==> l.zipCode.Some?) &&
    (Rank(l.status) >= 3 ==> l.projectType.Some?) &&
    (IsTerminal(l.status) <==> l.qualScore.Some?) &&
    (IsTerminal(l.status) ==> l.status == Classify(l.qualScore.value))
  }

  predicate TableConsistent(leads: Table) {
    forall q :: q in leads ==> Consistent(leads[q])
  }

  /** The router keeps every row consistent: the status and the score are
      never written one without the other, and no score outside the 64-bit
      range is ever stored. */
  lemma RespondKeepsConsistent(leads: Table, phone: string, body: string,
                               oracle: Prompt -> OracleReply, now: string)
    requires TableConsistent(leads)
    ensures TableConsistent(Respond(leads, phone, body, oracle, now).leads)
  {
    if IsOptOut(Strip(body)) {
      OptOutIsNoOp(leads, phone, body, oracle, now);
    } else {
      match StatusOf(leads, phone)
      case New => FirstMessageInserts(leads, phone, body, oracle, now);
      case Q1 => ZipAnswerStored(leads, phone, body, oracle, now);
      case Q2 => ProjectTypeStored(leads, phone, body, oracle, now);
      case Q3 => FinalAnswerClassifies(leads, phone, body, oracle, now);
      case _ => ClassifiedIsAbsorbing(leads, phone, body, oracle, now);
    }
  }

  /** One inbound message: who sent it, what it says, when it arrived, and how
      the scoring service answers while it is handled. */
  datatype Inbound = Inbound(phone: string, body: string, now: string, oracle: Prompt -> OracleReply)

  /** Handling one message, as a function of the table it arrives at. */
  function Handle(l: Table, m: Inbound): Outcome {
    Respond(l, m.phone, m.body, m.oracle, m.now)
  }

  /** The table after `step` has handled `msgs` in order. */
  function RunWith(step: (Table, Inbound) -> Outcome, leads: Table, msgs: seq<Inbound>): Table
    decreases |msgs|
  {
    if msgs == [] then leads else RunWith(step, step(leads, msgs[0]).leads, msgs[1..])
  }

  /** How many of the outcomes of `step` on `msgs` alert about phone `p`. */
  function AlertsWith(step: (Table, Inbound) -> Outcome, leads: Table, msgs: seq<Inbound>, p: string): nat
    decreases |msgs|
  {
    if msgs == [] then 0
    else
      var o := step(leads, msgs[0]);
      (if msgs[0].phone == p && o.alert.Some? then 1 else 0) + AlertsWith(step, o.leads, msgs[1..], p)
  }

  /** The table after the router has handled `msgs` in order. */
  function Run(leads: Table, msgs: seq<Inbound>): Table {
    RunWith(Handle, leads, msgs)
  }

  /** How many contractor alerts handling `msgs` sends about phone `p`. */
  function AlertsFor(leads: Table, msgs: seq<Inbound>, p: string): nat {
    AlertsWith(Handle, leads, msgs, p)
  }

  /** Handling the first message, then the rest. */
  lemma RunFirst(leads: Table, msgs: seq<Inbound>, p: string)
    requires msgs != []
    ensures var o := Respond(leads, msgs[0].phone, msgs[0].body, msgs[0].oracle, msgs[0].now);
            Run(leads, msgs) == Run(o.leads, msgs[1..]) &&
            AlertsFor(leads, msgs, p) ==
              (if msgs[0].phone == p && o.alert.Some? then 1 else 0) + AlertsFor(o.leads, msgs[1..], p)
  {
  }

  /** No sequence of messages moves a phone backward along the funnel, removes
      its row, or changes its row once it is classified. */
  lemma {:induction false} RunNeverBackward(leads: Table, msgs: seq<Inbound>, q: string)
    ensures var after := Run(leads, msgs);
            (q in leads ==> q in after) &&
            Rank(StatusOf(after, q)) >= Rank(StatusOf(leads, q)) &&
            (q in leads && IsTerminal(leads[q].status) ==> after[q] == leads[q])
    decreases |msgs|
  {
    if msgs != [] {
      var m := msgs[0];
      RespondNeverBackward(leads, m.phone, m.body, m.oracle, m.now, q);
      RunNeverBackward(Handle(leads, m).leads, msgs[1..], q);
    }
  }

  /** Every row stays consistent over any sequence of messages. */
  lemma {:induction false} RunKeepsConsistent(leads: Table, msgs: seq<Inbound>)
    requires TableConsistent(leads)
    ensures TableConsistent(Run(leads, msgs))
    decreases |msgs|
  {
    if msgs != [] {
      var m := msgs[0];
      RespondKeepsConsistent(leads, m.phone, m.body, m.oracle, m.now);
      RunKeepsConsistent(Handle(leads, m).leads, msgs[1..]);
    }
  }

  /** The contractor hears about a phone at most once, however many messages
      follow, and never about one that is already classified. */
  lemma {:induction false} AlertsAtMostOnce(leads: Table, msgs: seq<Inbound>, p: string)
    ensures AlertsFor(leads, msgs, p) <= 1
    ensures p in leads && IsTerminal(leads[p].status) ==> AlertsFor(leads, msgs, p) == 0
    decreases |msgs|
  {
    if msgs != [] {
      var m := msgs[0];
      var o := Handle(leads, m);
      RespondNeverBackward(leads, m.phone, m.body, m.oracle, m.now, p);
      AlertsAtMostOnce(o.leads, msgs[1..], p);
      if m.phone == p && o.alert.Some? {
        AlertOnlyWhenHot(leads, m.phone, m.body, m.oracle, m.now);
      }
    }
  }

  /** The store behind `get_lead_status` and `update_lead`: a table keyed by
      phone number that the router reads and rewrites. */
  class LeadsTable {
    var leads: Table

    constructor ()
      ensures leads == map[]
    {
      leads := map[];
    }

    /** `get_lead_status`: NEW exactly when the phone has no row. */
    method GetLeadStatus(phone: string) returns (s: Status)
      ensures s == StatusOf(leads, phone)
    {
      if phone in leads {
        s := leads[phone].status;
      } else {
        s := New;
      }
    }

    /** `update_lead(phone, **p)`: insert on the first Q1, otherwise patch the
      named columns of the phone's row, if it has one. `ok` is false when the
      call raises because a value does not bind; then nothing is written. A
      call that names no column builds an UPDATE with an empty SET clause,
      which SQLite rejects. */
    method UpdateLead(phone: string, p: Patch, now: string) returns (ok: bool)
      requires p.NamesAColumn()
      modifies this
      ensures ok <==> !UpdateOverflows(old(leads), phone, p)
      ensures leads == Upserted(old(leads), phone, p, now)
    {
      var current := GetLeadStatus(phone);
      if current == New && p.status == Some(Q1) {
        leads := leads[phone := FreshLead(now)];
        ok := true;
      } else if !Binds(p) {
        ok := false;
      } else {
        if phone in leads {
          leads := leads[phone := ApplyPatch(leads[phone], p)];
        }
        ok := true;
      }
    }
  }

  /** `sms_reply`: strip the body, read the status, stop at an opt-out, then
      write the next row and build the reply; on a HOT classification, build
      the contractor alert from the row just written. It returns the reply's
      text and the alert's text; both are `None` when the final write raises. */
  method SmsReply(db: LeadsTable, phone: string, body: string,
                  oracle: Prompt -> OracleReply, now: string)
    returns (reply: Option<string>, alert: Option<string>)
    modifies db
    ensures var o := Respond(old(db.leads), phone, body, oracle, now);
            db.leads == o.leads &&
            reply == (if o.reply.Some? then Some(Text(o.reply.value)) else None)
    ensures var o := Respond(old(db.leads), phone, body, oracle, now);
            o.alert.Some? ==> phone in db.leads
    ensures var o := Respond(old(db.leads), phone, body, oracle, now);
            alert == (if o.alert.Some? then Some(ForwardToContractor(db.leads, phone, o.alert.value)) else None)
  {
    AlertCarriesStoredScore(db.leads, phone, body, oracle, now);
    var incoming := Strip(body);
    var current := db.GetLeadStatus(phone);
    if IsOptOut(incoming) {
      return None, None;
    }
    alert := None;
    match current
    case New =>
      var _ := db.UpdateLead(phone, StatusPatch(Q1), now);
      reply := Some(Text(Welcome));
    case Q1 =>
      var _ := db.UpdateLead(phone, Patch(Some(incoming), None, Some(Q2), None), now);
      reply := Some(Text(AskProjectType));
    case Q2 =>
      var _ := db.UpdateLead(phone, Patch(None, Some(incoming), Some(Q3), None), now);
      reply := Some(Text(AskTimeline));
    case Q3 =>
      var (score, classification) := CalculateScore(db.leads, phone, incoming, oracle);
      var written := db.UpdateLead(phone, Patch(None, None, Some(classification), Some(score)), now);
      if !written {
        return None, None;
      }
      if classification == Hot {
        reply := Some(Text(HotConfirmed(score)));
        alert := Some(ForwardToContractor(db.leads, phone, score));
      } else {
        reply := Some(Text(Closing));
      }
    case _ =>
      reply := Some(Text(AlreadyLogged));
  }

  /** The oracle's integer score of 7 or more makes the lead HOT with that score. */
  lemma ScoresHot(leads: Table, phone: string, answer: string, oracle: Prompt -> OracleReply, s: int)
    requires phone in leads && s >= 7
    requires oracle(PromptFor(leads[phone], answer)) == Reply(Integer(s))
    ensures CalculateScore(leads, phone, answer, oracle) == (s, Hot)
  {
  }

  /** Writing a row twice leaves the second value. */
  lemma OverwriteRow(t: Table, phone: string, a: Lead, b: Lead)
    ensures t[phone := a][phone := b] == t[phone := b]
  {
  }

  /** The stages of one conversation, each a message followed by any `rest`:
      the table it leads to and the alerts it sends. */
  lemma ConversationGreets(leads: Table, phone: string, hello: string, t: string,
                           oracle: Prompt -> OracleReply, rest: seq<Inbound>)
    requires phone !in leads && !IsOptOut(Strip(hello))
    ensures var msgs := [Inbound(phone, hello, t, oracle)] + rest;
            var after := leads[phone := Lead(None, Q1, None, None, t)];
            Run(leads, msgs) == Run(after, rest) &&
            AlertsFor(leads, msgs, phone) == AlertsFor(after, rest, phone)
  {
    var msgs := [Inbound(phone, hello, t, oracle)] + rest;
    assert msgs[0] == Inbound(phone, hello, t, oracle) && msgs[1..] == rest;
    RunFirst(leads, msgs, phone);
    FirstMessageInserts(leads, phone, hello, oracle, t);
  }

  lemma ConversationTakesZip(leads: Table, phone: string, l: Lead, zip: string, t: string,
                             oracle: Prompt -> OracleReply, rest: seq<Inbound>)
    requires l.status == Q1 && !IsOptOut(Strip(zip))
    ensures var msgs := [Inbound(phone, zip, t, oracle)] + rest;
            var after := leads[phone := l.(zipCode := Some(Strip(zip)), status := Q2)];
            Run(leads[phone := l], msgs) == Run(after, rest) &&
            AlertsFor(leads[phone := l], msgs, phone) == AlertsFor(after, rest, phone)
  {
    var msgs := [Inbound(phone, zip, t, oracle)] + rest;
    assert msgs[0] == Inbound(phone, zip, t, oracle) && msgs[1..] == rest;
    RunFirst(leads[phone := l], msgs, phone);
    ZipAnswerStored(leads[phone := l], phone, zip, oracle, t);
    OverwriteRow(leads, phone, l, l.(zipCode := Some(Strip(zip)), status := Q2));
  }

  lemma ConversationTakesProjectType(leads: Table, phone: string, l: Lead, projectType: string,
                                     t: string, oracle: Prompt -> OracleReply, rest: seq<Inbound>)
    requires l.status == Q2 && !IsOptOut(Strip(projectType))
    ensures var msgs := [Inbound(phone, projectType, t, oracle)] + rest;
            var after := leads[phone := l.(projectType := Some(Strip(projectType)), status := Q3)];
            Run(leads[phone := l], msgs) == Run(after, rest) &&
            AlertsFor(leads[phone := l], msgs, phone) == AlertsFor(after, rest, phone)
  {
    var msgs := [Inbound(phone, projectType, t, oracle)] + rest;
    assert msgs[0] == Inbound(phone, projectType, t, oracle) && msgs[1..] == rest;
    RunFirst(leads[phone := l], msgs, phone);
    ProjectTypeStored(leads[phone := l], phone, projectType, oracle, t);
    OverwriteRow(leads, phone, l, l.(projectType := Some(Strip(projectType)), status := Q3));
  }

  lemma ConversationQualifies(leads: Table, phone: string, l: Lead, answer: string, t: string,
                              oracle: Prompt -> OracleReply, rest: seq<Inbound>, s: int)
    requires l.status == Q3 && !IsOptOut(Strip(answer))
    requires 7 <= s <= MaxInteger && oracle(PromptFor(l, Strip(answer))) == Reply(Integer(s))
    ensures var msgs := [Inbound(phone, answer, t, oracle)] + rest;
            var after := leads[phone := l.(status := Hot, qualScore := Some(s))];
            Run(leads[phone := l], msgs) == Run(after, rest) &&
            AlertsFor(leads[phone := l], msgs, phone) == 1 + AlertsFor(after, rest, phone)
  {
    var msgs := [Inbound(phone, answer, t, oracle)] + rest;
    assert msgs[0] == Inbound(phone, answer, t, oracle) && msgs[1..] == rest;
    RunFirst(leads[phone := l], msgs, phone);
    ScoresHot(leads[phone := l], phone, Strip(answer), oracle, s);
    FinalAnswerClassifies(leads[phone := l], phone, answer, oracle, t);
    OverwriteRow(leads, phone, l, l.(status := Hot, qualScore := Some(s)));
  }

  /** A score too large for an SQLite INTEGER aborts the final step: the row
      stays at Q3, nothing is sent back and the contractor is not alerted. */
  lemma OversizedScoreAborts(leads: Table, phone: string, body: string,
                             oracle: Prompt -> OracleReply, now: string, s: int)
    requires StatusOf(leads, phone) == Q3 && !IsOptOut(Strip(body))
    requires s > MaxInteger && oracle(PromptFor(leads[phone], Strip(body))) == Reply(Integer(s))
    ensures Respond(leads, phone, body, oracle, now) == Outcome(leads, None, None)
  {
    FinalAnswerClassifies(leads, phone, body, oracle, now);
  }

  /** The four messages of a conversation from one phone, each handled with
      the scoring service's behaviour at the time it arrives. */
  function Conversation(phone: string, hello: string, zip: string, projectType: string,
                        answer: string, times: seq<string>,
                        oracles: seq<Prompt -> OracleReply>): seq<Inbound>
    requires |times| == 4 && |oracles| == 4
  {
    [Inbound(phone, hello, times[0], oracles[0]), Inbound(phone, zip, times[1], oracles[1]),
     Inbound(phone, projectType, times[2], oracles[2]), Inbound(phone, answer, times[3], oracles[3])]
  }

  /** A conversation is its four messages put one in front of the other. */
  lemma ConversationShape(phone: string, hello: string, zip: string, projectType: string,
                          answer: string, times: seq<string>, oracles: seq<Prompt -> OracleReply>)
    requires |times| == 4 && |oracles| == 4
    ensures Conversation(phone, hello, zip, projectType, answer, times, oracles) ==
            [Inbound(phone, hello, times[0], oracles[0])] + ([Inbound(phone, zip, times[1], oracles[1])] +
            ([Inbound(phone, projectType, times[2], oracles[2])] +
             ([Inbound(phone, answer, times[3], oracles[3])] + [])))
  {
  }

  /** A whole conversation: a phone with no row sends a first message, then a
      ZIP, a project type and a final answer that the scoring service, as it
      answers when that last message arrives, scores `s`, at least 7 and within
      the 64-bit range. Its row ends HOT with the stripped answers and that
      score, stamped with the time of the first message, every other row is as
      it was, and exactly one alert goes out. None of the messages is an
      opt-out keyword. */
  lemma FullConversation(leads: Table, phone: string, hello: string, zip: string,
                         projectType: string, answer: string, times: seq<string>,
                         oracles: seq<Prompt -> OracleReply>, s: int)
    requires phone !in leads && |times| == 4 && |oracles| == 4
    requires !IsOptOut(Strip(hello)) && !IsOptOut(Strip(zip))
    requires !IsOptOut(Strip(projectType)) && !IsOptOut(Strip(answer))
    requires 7 <= s <= MaxInteger
    requires oracles[3](Prompt(Some(Strip(zip)), Some(Strip(projectType)), Strip(answer))) == Reply(Integer(s))
    ensures var msgs := Conversation(phone, hello, zip, projectType, answer, times, oracles);
            Run(leads, msgs) ==
              leads[phone := Lead(Some(Strip(zip)), Hot, Some(s), Some(Strip(projectType)), times[0])] &&
            AlertsFor(leads, msgs, phone) == 1
  {
    var r3 := [Inbound(phone, answer, times[3], oracles[3])] + [];
    var r2 := [Inbound(phone, projectType, times[2], oracles[2])] + r3;
    var r1 := [Inbound(phone, zip, times[1], oracles[1])] + r2;
    var l1 := Lead(None, Q1, None, None, times[0]);
    var l2 := l1.(zipCode := Some(Strip(zip)), status := Q2);
    var l3 := l2.(projectType := Some(Strip(projectType)), status := Q3);
    var l4 := l3.(status := Hot, qualScore := Some(s));
    ConversationShape(phone, hello, zip, projectType, answer, times, oracles);
    ConversationGreets(leads, phone, hello, times[0], oracles[0], r1);
    ConversationTakesZip(leads, phone, l1, zip, times[1], oracles[1], r2);
    ConversationTakesProjectType(leads, phone, l2, projectType, times[2], oracles[2], r3);
    ConversationQualifies(leads, phone, l3, answer, times[3], oracles[3], [], s);
    assert l4 == Lead(Some(Strip(zip)), Hot, Some(s), Some(Strip(projectType)), times[0]);
    assert Run(leads[phone := l4], []) == leads[phone := l4];
    assert AlertsFor(leads[phone := l4], [], phone) == 0;
  }
}
