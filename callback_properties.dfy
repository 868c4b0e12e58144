/**
 * What the callback script promises, stated about `Callback.Handle`: the
 * order of its gates, that nothing changes and no gateway request is sent
 * when an early gate fails, where the ids come from, the enrolment window,
 * exactly one enrolment and one row update on success, the mail decisions,
 * and what the script does NOT do (deduplicate repeated callbacks, undo an
 * enrolment when the row is missing).
 */
module CallbackProperties {
  import opened Wrappers
  import opened Php
  import opened Duitku
  import opened Callback

  /** An order id with fewer than three '-' (so fewer than four segments, "" included) is refused first. */
  lemma ShortOrderIdRejected(db: Db, cfg: Config, q: map<string, string>, now: nat, stamp: nat,
                             prim: Primitives, respond: HttpPost -> HttpReply)
    requires cfg.enabled && ReadParams(q).Ok?
    requires Occurrences('-', ReadParams(q).value.merchantOrderId) < 3
    ensures Handle(db, cfg, q, now, stamp, prim, respond) == Run(Rejected(InvalidOrderId), db, [])
  {
  }

  /** Four segments but an empty merchantCode, amount or signature: "Bad Parameter", nothing else happens. */
  lemma EmptyFieldRejected(db: Db, cfg: Config, q: map<string, string>, now: nat, stamp: nat,
                           prim: Primitives, respond: HttpPost -> HttpReply)
    requires cfg.enabled && ReadParams(q).Ok?
    requires var p := ReadParams(q).value;
      |Explode('-', p.merchantOrderId)| >= 4 && (Empty(p.merchantCode) || Empty(p.amount) || Empty(p.signature))
    ensures Handle(db, cfg, q, now, stamp, prim, respond) == Run(Rejected(BadParameter), db, [])
  {
  }

  /**
   * The empty-order-id test of line 60 can never fire: an order id that
   * passed the four-segment test is neither "" nor "0".
   */
  lemma {:induction false} OrderIdNeverEmptyAfterSplit(s: string)
    requires |Explode('-', s)| >= 4
    ensures !Empty(s)
  {
    assert Occurrences('-', "") == 0;
    assert Occurrences('-', "0") == Occurrences('-', ""); 
  }

  /** A signature other than md5(merchantCode ++ amount ++ merchantOrderId ++ apikey) is refused. */
  lemma ForgedSignatureRejected(db: Db, cfg: Config, q: map<string, string>, now: nat, stamp: nat,
                                prim: Primitives, respond: HttpPost -> HttpReply)
    requires cfg.enabled && ReadParams(q).Ok?
    requires var p := ReadParams(q).value;
      && |Explode('-', p.merchantOrderId)| >= 4
      && !Empty(p.merchantCode) && !Empty(p.amount) && !Empty(p.signature)
      && p.signature != prim.md5(p.merchantCode + p.amount + p.merchantOrderId + cfg.apikey)
    ensures Handle(db, cfg, q, now, stamp, prim, respond) == Run(Rejected(BadSignature), db, [])
  {
    OrderIdNeverEmptyAfterSplit(ReadParams(q).value.merchantOrderId);
  }

  /** A correctly signed callback whose resultCode is not the success code is refused before any lookup. */
  lemma InlineFailureRejected(db: Db, cfg: Config, q: map<string, string>, now: nat, stamp: nat,
                              prim: Primitives, respond: HttpPost -> HttpReply)
    requires cfg.enabled && ReadParams(q).Ok?
    requires var p := ReadParams(q).value;
      && |Explode('-', p.merchantOrderId)| >= 4
      && !Empty(p.merchantCode) && !Empty(p.amount) && !Empty(p.signature)
      && p.signature == prim.md5(p.merchantCode + p.amount + p.merchantOrderId + cfg.apikey)
      && p.resultCode != CheckStatusSuccess
    ensures Handle(db, cfg, q, now, stamp, prim, respond) == Run(Rejected(PaymentFailed), db, [])
  {
    OrderIdNeverEmptyAfterSplit(ReadParams(q).value.merchantOrderId);
  }

  /**
   * The gates before the re-check pass exactly when the plugin is enabled,
   * every parameter is present, the order id has four segments, the three
   * fields are non-empty, the signature matches, resultCode is the success
   * code, and user, course and an active duitku instance all exist.
   */
  lemma AdmissionIff(db: Db, cfg: Config, q: map<string, string>, md5: string -> string)
    ensures Admission(db, cfg, q, md5).Ok? <==>
      && cfg.enabled
      && ReadParams(q).Ok?
      && var p := ReadParams(q).value;
         var custom := Explode('-', p.merchantOrderId);
         && |custom| >= 4
         && !Empty(p.merchantCode) && !Empty(p.amount) && !Empty(p.signature)
         && p.signature == md5(p.merchantCode + p.amount + p.merchantOrderId + cfg.apikey)
         && p.resultCode == CheckStatusSuccess
         && IntCast(custom[1]) in db.users
         && IntCast(custom[2]) in db.courses
         && IntCast(custom[3]) in db.instances
         && Active(db.instances[IntCast(custom[3])])
    ensures Admission(db, cfg, q, md5).Ok? ==>
      var a := Admission(db, cfg, q, md5).value;
      && a.p == ReadParams(q).value
      && a.ids == OrderIds(Explode('-', a.p.merchantOrderId))
      && a.inst == db.instances[a.ids.instanceid]
  {
    if cfg.enabled && ReadParams(q).Ok? {
      var p := ReadParams(q).value;
      if |Explode('-', p.merchantOrderId)| >= 4 {
        OrderIdNeverEmptyAfterSplit(p.merchantOrderId);
      }
    }
  }

  /**
   * A gateway request is sent exactly when every earlier gate passed, and it
   * is then the single transactionStatus request built from the callback's
   * merchant code and order id and the stored API key.
   */
  lemma GatewayCalledOnlyAfterGates(db: Db, cfg: Config, q: map<string, string>, now: nat, stamp: nat,
                                    prim: Primitives, respond: HttpPost -> HttpReply)
    ensures var run := Handle(db, cfg, q, now, stamp, prim, respond);
      && (run.posts != [] <==> Admission(db, cfg, q, prim.md5).Ok?)
      && (run.posts != [] ==> run.posts == [RecheckPost(Admission(db, cfg, q, prim.md5).value.p, cfg, prim)])
  {
  }

  /**
   * `enrol_user` is called exactly when every gate passed and the re-check
   * confirmed the payment, and then exactly once; otherwise the enrolments
   * are untouched. Neither the signature nor the re-check alone suffices.
   */
  lemma EnrolmentIff(db: Db, cfg: Config, q: map<string, string>, now: nat, stamp: nat,
                     prim: Primitives, respond: HttpPost -> HttpReply)
    ensures var run := Handle(db, cfg, q, now, stamp, prim, respond);
      var admitted := Admission(db, cfg, q, prim.md5);
      var confirmed := admitted.Ok? && Confirmed(respond(RecheckPost(admitted.value.p, cfg, prim)).body, prim.statusOf);
      && (confirmed ==> |run.db.enrolments| == |db.enrolments| + 1 && run.db.enrolments[..|db.enrolments|] == db.enrolments)
      && (!confirmed ==> run.db.enrolments == db.enrolments)
  {
    var run := Handle(db, cfg, q, now, stamp, prim, respond);
    var admitted := Admission(db, cfg, q, prim.md5);
    if admitted.Ok? && Confirmed(respond(RecheckPost(admitted.value.p, cfg, prim)).body, prim.statusOf) {
      var a := admitted.value;
      var call := EnrolCall(a.ids.instanceid, a.ids.userid, a.inst.roleid,
        EnrolWindow(a.inst.enrolperiod, now).0, EnrolWindow(a.inst.enrolperiod, now).1);
      assert run.db.enrolments == db.enrolments + [call];
      assert (db.enrolments + [call])[..|db.enrolments|] == db.enrolments;
    }
  }

  /**
   * Every enrolment the script makes is for the user and instance named by
   * segments 1 and 3 of the order id, with the instance's role and window
   * (0, 0) or (now, now + enrolperiod), so timeend >= timestart exactly
   * when the stored period is not negative.
   */
  lemma EnrolmentCall(db: Db, cfg: Config, q: map<string, string>, now: nat, stamp: nat,
                      prim: Primitives, respond: HttpPost -> HttpReply)
    requires |Handle(db, cfg, q, now, stamp, prim, respond).db.enrolments| > |db.enrolments|
    ensures ReadParams(q).Ok? && |Explode('-', ReadParams(q).value.merchantOrderId)| >= 4
    ensures var run := Handle(db, cfg, q, now, stamp, prim, respond);
      var custom := Explode('-', ReadParams(q).value.merchantOrderId);
      var call := run.db.enrolments[|db.enrolments|];
      && call.userid == IntCast(custom[1])
      && call.instanceid == IntCast(custom[3])
      && call.instanceid in db.instances
      && var inst := db.instances[call.instanceid];
         && call.roleid == inst.roleid
         && (call.timestart <= call.timeend <==> inst.enrolperiod >= 0)
         && (if inst.enrolperiod == 0 then call.timestart == 0 && call.timeend == 0
             else call.timestart == now && call.timeend == now + inst.enrolperiod)
  {
    AdmissionIff(db, cfg, q, prim.md5);
    EnrolmentIff(db, cfg, q, now, stamp, prim, respond);
  }

  /**
   * On success the ids are the integer values of segments 1, 2 and 3, the
   * one row under (userid, courseid, instanceid, reference) gets the result
   * code (the success code), the callback note and the stamp, and every
   * other row, key and column is as it was.
   */
  lemma SuccessUpdatesOneRow(db: Db, cfg: Config, q: map<string, string>, now: nat, stamp: nat,
                             prim: Primitives, respond: HttpPost -> HttpReply)
    requires Handle(db, cfg, q, now, stamp, prim, respond).outcome.Enrolled?
    ensures ReadParams(q).Ok? && |Explode('-', ReadParams(q).value.merchantOrderId)| >= 4
    ensures var run := Handle(db, cfg, q, now, stamp, prim, respond);
      var p := ReadParams(q).value;
      var ids := run.outcome.ids;
      var key := RowKey(ids.userid, ids.courseid, ids.instanceid, p.reference);
      && ids == OrderIds(Explode('-', p.merchantOrderId))
      && key in db.rows
      && run.db.rows.Keys == db.rows.Keys
      && run.db.rows[key] == Row(db.rows[key].id, CheckStatusSuccess, cfg.callbackNote, stamp)
      && (forall k :: k in db.rows && k != key ==> run.db.rows[k] == db.rows[k])
      && |run.db.enrolments| == |db.enrolments| + 1
      && run.db.users == db.users && run.db.courses == db.courses && run.db.instances == db.instances
  {
    AdmissionIff(db, cfg, q, prim.md5);
    EnrolmentIff(db, cfg, q, now, stamp, prim, respond);
  }

  /** A rejected callback updates no row and sends no mail. */
  lemma RejectionKeepsRowsAndMails(db: Db, cfg: Config, q: map<string, string>, now: nat, stamp: nat,
                                   prim: Primitives, respond: HttpPost -> HttpReply)
    requires Handle(db, cfg, q, now, stamp, prim, respond).outcome.Rejected?
    ensures var run := Handle(db, cfg, q, now, stamp, prim, respond);
      run.db.rows == db.rows && run.db.mails == db.mails
  {
  }

  /** A re-check that does not report the success code stops the script with nothing changed. */
  lemma UnconfirmedRejected(db: Db, cfg: Config, q: map<string, string>, now: nat, stamp: nat,
                            prim: Primitives, respond: HttpPost -> HttpReply)
    requires Admission(db, cfg, q, prim.md5).Ok?
    requires var post := RecheckPost(Admission(db, cfg, q, prim.md5).value.p, cfg, prim);
      match respond(post).body
      case None => true
      case Some(body) => prim.statusOf(body) != Some(CheckStatusSuccess)
    ensures var post := RecheckPost(Admission(db, cfg, q, prim.md5).value.p, cfg, prim);
      Handle(db, cfg, q, now, stamp, prim, respond) == Run(Rejected(Unconfirmed), db, [post])
  {
  }

  /**
   * When the transaction row is missing, `update_record` fails after
   * `enrol_user` has run: the script stops with the user enrolled, the rows
   * untouched and no mail sent.
   */
  lemma MissingRowLeavesEnrolment(db: Db, cfg: Config, q: map<string, string>, now: nat, stamp: nat,
                                  prim: Primitives, respond: HttpPost -> HttpReply)
    requires Admission(db, cfg, q, prim.md5).Ok?
    requires var a := Admission(db, cfg, q, prim.md5).value;
      && Confirmed(respond(RecheckPost(a.p, cfg, prim)).body, prim.statusOf)
      && RowKey(a.ids.userid, a.ids.courseid, a.ids.instanceid, a.p.reference) !in db.rows
    ensures var run := Handle(db, cfg, q, now, stamp, prim, respond);
      && run.outcome == Rejected(RowNotFound)
      && |run.db.enrolments| == |db.enrolments| + 1
      && run.db.rows == db.rows && run.db.mails == db.mails
  {
  }

  /**
   * The script does not deduplicate: replaying a callback that succeeded
   * succeeds again and calls `enrol_user` a second time with the same
   * arguments.
   */
  lemma RepeatedCallbackEnrolsAgain(db: Db, cfg: Config, q: map<string, string>, now: nat, stamp: nat,
                                    prim: Primitives, respond: HttpPost -> HttpReply)
    requires Handle(db, cfg, q, now, stamp, prim, respond).outcome.Enrolled?
    ensures var first := Handle(db, cfg, q, now, stamp, prim, respond);
      var second := Handle(first.db, cfg, q, now, stamp, prim, respond);
      && second.outcome == first.outcome
      && |second.db.enrolments| == |db.enrolments| + 2
      && second.db.enrolments[|db.enrolments| + 1] == first.db.enrolments[|db.enrolments|]
  {
    var first := Handle(db, cfg, q, now, stamp, prim, respond);
    SuccessUpdatesOneRow(db, cfg, q, now, stamp, prim, respond);
    assert Admission(first.db, cfg, q, prim.md5) == Admission(db, cfg, q, prim.md5);
  }

  /** The integer casts of the three id segments of the example. */
  lemma ExampleCasts()
    ensures IntCast("7") == 7 && IntCast("3") == 3 && IntCast("19") == 19
  {
    assert Decimal(7) == "7" && Decimal(3) == "3";
    assert Decimal(19) == "19" by { assert Decimal(1) == "1"; }
    CastOfDecimal(7);
    CastOfDecimal(3);
    CastOfDecimal(19);
  }

  lemma CastOfDecimal(n: nat)
    requires n <= IntMax
    ensures IntCast(Decimal(n)) == n
  {
    IntCastOfDecimal("", n, "");
    assert "" + Decimal(n) + "" == Decimal(n);
  }

  /**
   * Any order id whose first pieces are "42", "7", "3", "19" names user 7,
   * course 3, instance 19: segment 0 and the segments after the fourth are
   * ignored.
   */
  lemma {:induction false} ExampleOrderIdWithSuffix(parts: seq<string>)
    requires |parts| >= 4 && parts[0] == "42" && parts[1] == "7" && parts[2] == "3" && parts[3] == "19"
    requires forall i :: 0 <= i < |parts| ==> '-' !in parts[i]
    ensures var custom := Explode('-', Implode('-', parts));
      |custom| >= 4 && OrderIds(custom) == Ids(7, 3, 19)
  {
    ExplodeImplode('-', parts);
    ExampleCasts();
  }

  /** The ids of "42-7-3-19" are user 7, course 3, instance 19. */
  lemma ExampleOrderId()
    ensures OrderIds(Explode('-', "42-7-3-19")) == Ids(7, 3, 19)
  {
    var parts := ["42", "7", "3", "19"];
    assert Implode('-', parts[3..]) == "19";
    assert Implode('-', parts[2..]) == "3-19";
    assert Implode('-', parts[1..]) == "7-3-19";
    assert Implode('-', parts) == "42-7-3-19";
    ExampleOrderIdWithSuffix(parts);
  }

  /**
   * A user-id segment whose digits are too large for a double reads as user
   * 0: `(int)` turns the infinite double into 0, not into the largest `int`.
   */
  lemma {:induction false} OverflowingUserIdReadsAsZero(parts: seq<string>, n: nat)
    requires |parts| >= 4 && parts[1] == Decimal(n) && n >= DoubleOverflow
    requires forall i :: 0 <= i < |parts| ==> '-' !in parts[i]
    ensures var custom := Explode('-', Implode('-', parts));
      |custom| >= 4 && OrderIds(custom).userid == 0
  {
    ExplodeImplode('-', parts);
    IntCastOfHuge("", n, "");
    assert "" + Decimal(n) + "" == Decimal(n);
  }

  /** The mails of kind `k`, in order. */
  function OfKind(ms: seq<Mail>, k: MailKind): (r: seq<Mail>)
    ensures |r| <= |ms|
    ensures forall i :: 0 <= i < |r| ==> r[i].kind == k
  {
    if ms == [] then [] else (if ms[0].kind == k then [ms[0]] else []) + OfKind(ms[1..], k)
  }

  lemma {:induction false} OfKindAppend(a: seq<Mail>, b: seq<Mail>, k: MailKind)
    ensures OfKind(a + b, k) == OfKind(a, k) + OfKind(b, k)
    decreases |a|
  {
    if a != [] {
      var head := if a[0].kind == k then [a[0]] else [];
      assert (a + b)[0] == a[0] && (a + b)[1..] == a[1..] + b;
      assert OfKind(a + b, k) == head + OfKind(a[1..] + b, k);
      OfKindAppend(a[1..], b, k);
      assert OfKind(a, k) == head + OfKind(a[1..], k);
    } else {
      assert a + b == b;
    }
  }

  lemma {:induction false} OfKindAdminMails(admins: seq<int>, userid: int, k: MailKind)
    ensures OfKind(AdminMails(admins, userid), k) == if k == AdminMail then AdminMails(admins, userid) else []
    decreases |admins|
  {
    if admins != [] {
      var init := admins[..|admins| - 1];
      var m := Mail(AdminMail, Person(admins[|admins| - 1]), Person(userid));
      OfKindAdminMails(init, userid, k);
      OfKindAppend(AdminMails(init, userid), [m], k);
      assert OfKind([m], k) == if k == AdminMail then [m] else [];
    }
  }

  /**
   * The three mail decisions: one student mail iff mailstudents is set (from
   * the teacher, else the support user); one teacher mail iff mailteachers
   * is set and a teacher exists; one admin mail per admin, in order, iff
   * mailadmins is set.
   */
  lemma MailDecisions(teachers: map<int, seq<int>>, admins: seq<int>, cfg: Config, courseid: int, userid: int)
    ensures var ms := Notifications(teachers, admins, cfg, courseid, userid);
      var teacher := Teacher(teachers, courseid);
      && OfKind(ms, StudentMail) == (if Empty(cfg.mailstudents) then []
           else [Mail(StudentMail, Person(userid), if teacher.Some? then Person(teacher.value) else SupportUser)])
      && OfKind(ms, TeacherMail) == (if Empty(cfg.mailteachers) || teacher.None? then []
           else [Mail(TeacherMail, Person(teacher.value), Person(userid))])
      && OfKind(ms, AdminMail) == (if Empty(cfg.mailadmins) then [] else AdminMails(admins, userid))
  {
    StudentMailDecision(teachers, admins, cfg, courseid, userid);
    TeacherMailDecision(teachers, admins, cfg, courseid, userid);
    AdminMailDecision(teachers, admins, cfg, courseid, userid);
  }

  lemma StudentMailDecision(teachers: map<int, seq<int>>, admins: seq<int>, cfg: Config, courseid: int, userid: int)
    ensures var teacher := Teacher(teachers, courseid);
      OfKind(Notifications(teachers, admins, cfg, courseid, userid), StudentMail) == (if Empty(cfg.mailstudents) then []
        else [Mail(StudentMail, Person(userid), if teacher.Some? then Person(teacher.value) else SupportUser)])
  {
    var teacher := Teacher(teachers, courseid);
    var s := StudentMails(cfg.mailstudents, teacher, userid);
    var t := TeacherMails(cfg.mailteachers, teacher, userid);
    var a := if Empty(cfg.mailadmins) then [] else AdminMails(admins, userid);
    assert Notifications(teachers, admins, cfg, courseid, userid) == s + t + a;
    MailsOfKind(s, t, a, StudentMail);
    assert OfKind(s, StudentMail) == s by { if s != [] { OfKindSingle(s[0], StudentMail); } }
    assert OfKind(t, StudentMail) == [] by { if t != [] { OfKindSingle(t[0], StudentMail); } }
    assert OfKind(a, StudentMail) == [] by { if !Empty(cfg.mailadmins) { OfKindAdminMails(admins, userid, StudentMail); } }
    assert s + [] + [] == s;
  }

  lemma TeacherMailDecision(teachers: map<int, seq<int>>, admins: seq<int>, cfg: Config, courseid: int, userid: int)
    ensures var teacher := Teacher(teachers, courseid);
      OfKind(Notifications(teachers, admins, cfg, courseid, userid), TeacherMail) ==
        (if Empty(cfg.mailteachers) || teacher.None? then [] else [Mail(TeacherMail, Person(teacher.value), Person(userid))])
  {
    var teacher := Teacher(teachers, courseid);
    var s := StudentMails(cfg.mailstudents, teacher, userid);
    var t := TeacherMails(cfg.mailteachers, teacher, userid);
    var a := if Empty(cfg.mailadmins) then [] else AdminMails(admins, userid);
    assert Notifications(teachers, admins, cfg, courseid, userid) == s + t + a;
    MailsOfKind(s, t, a, TeacherMail);
    assert OfKind(s, TeacherMail) == [] by { if s != [] { OfKindSingle(s[0], TeacherMail); } }
    assert OfKind(t, TeacherMail) == t by { if t != [] { OfKindSingle(t[0], TeacherMail); } }
    assert OfKind(a, TeacherMail) == [] by { if !Empty(cfg.mailadmins) { OfKindAdminMails(admins, userid, TeacherMail); } }
    assert [] + t + [] == t;
  }

  lemma AdminMailDecision(teachers: map<int, seq<int>>, admins: seq<int>, cfg: Config, courseid: int, userid: int)
    ensures OfKind(Notifications(teachers, admins, cfg, courseid, userid), AdminMail) ==
      (if Empty(cfg.mailadmins) then [] else AdminMails(admins, userid))
  {
    var teacher := Teacher(teachers, courseid);
    var s := StudentMails(cfg.mailstudents, teacher, userid);
    var t := TeacherMails(cfg.mailteachers, teacher, userid);
    var a := if Empty(cfg.mailadmins) then [] else AdminMails(admins, userid);
    assert Notifications(teachers, admins, cfg, courseid, userid) == s + t + a;
    MailsOfKind(s, t, a, AdminMail);
    assert OfKind(s, AdminMail) == [] by { if s != [] { OfKindSingle(s[0], AdminMail); } }
    assert OfKind(t, AdminMail) == [] by { if t != [] { OfKindSingle(t[0], AdminMail); } }
    assert OfKind(a, AdminMail) == a by { if !Empty(cfg.mailadmins) { OfKindAdminMails(admins, userid, AdminMail); } }
    assert [] + [] + a == a;
  }

  lemma MailsOfKind(s: seq<Mail>, t: seq<Mail>, a: seq<Mail>, k: MailKind)
    ensures OfKind(s + t + a, k) == OfKind(s, k) + OfKind(t, k) + OfKind(a, k)
  {
    OfKindAppend(s + t, a, k);
    OfKindAppend(s, t, k);
  }

  lemma OfKindSingle(m: Mail, k: MailKind)
    ensures OfKind([m], k) == if m.kind == k then [m] else []
  {
    assert [m][1..] == [];
  }

  /** On success the mails sent are exactly the three decisions, after the earlier mails. */
  lemma SuccessSendsNotifications(db: Db, cfg: Config, q: map<string, string>, now: nat, stamp: nat,
                                  prim: Primitives, respond: HttpPost -> HttpReply)
    requires Handle(db, cfg, q, now, stamp, prim, respond).outcome.Enrolled?
    ensures var run := Handle(db, cfg, q, now, stamp, prim, respond);
      run.db.mails == db.mails + Notifications(db.teachers, db.admins, cfg, run.outcome.ids.courseid, run.outcome.ids.userid)
  {
  }

  /**
   * The callback signature does not fix where merchantCode ends and amount
   * begins: two callbacks that differ only in that split carry the same
   * signature input.
   */
  lemma SignatureIgnoresFieldBoundary(p: Params, p': Params, apikey: string)
    requires p.merchantCode + p.amount == p'.merchantCode + p'.amount
    requires p.merchantOrderId == p'.merchantOrderId
    ensures CallbackSignatureInput(p, apikey) == CallbackSignatureInput(p', apikey)
  {
    assert CallbackSignatureInput(p, apikey) == (p.merchantCode + p.amount) + p.merchantOrderId + apikey;
    assert CallbackSignatureInput(p', apikey) == (p'.merchantCode + p'.amount) + p'.merchantOrderId + apikey;
  }
}
