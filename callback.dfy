/**
 * callback.php: the script Duitku calls when a payment settles. It reads the
 * request, passes it through a fixed sequence of gates (order-id format,
 * non-empty fields, MD5 signature, inline result code, user/course/instance
 * lookups, an independent status re-check with the gateway), then enrols the
 * user, updates the stored transaction row and sends the configured mails.
 *
 * `Handle` is the pipeline as a function of the site's state; `Site` holds
 * that state in mutable tables and `Site.HandleCallback` runs the script
 * step by step, proved to agree with `Handle`.
 */
module Callback {
  import opened Wrappers
  import opened Php
  import opened Duitku

  /** Why the script stops with an exception. */
  datatype Reason =
    | Disabled                  // errdisabled
    | MissingParam(name: string)
    | InvalidOrderId            // "Invalid value of the request param: merchantOrderId"
    | BadParameter              // "Bad Parameter"
    | BadSignature              // "Bad Signature"
    | PaymentFailed             // "Payment Failed", from the inline resultCode
    | UserNotFound
    | CourseNotFound
    | InstanceNotFound
    | Unconfirmed               // "Payment Failed", from the gateway re-check
    | RowNotFound               // update_record without an id

  /** The ids read from the order id. */
  datatype Ids = Ids(userid: int, courseid: int, instanceid: int)

  datatype Outcome = Rejected(reason: Reason) | Enrolled(ids: Ids)

  /** The callback's request parameters. */
  datatype Params = Params(
    merchantCode: string, amount: string, merchantOrderId: string, productDetail: string,
    additionalParam: string, paymentCode: string, resultCode: string, merchantUserId: string,
    reference: string, signature: string)

  /** Plugin configuration the script reads. */
  datatype Config = Config(
    enabled: bool,            // enrol_is_enabled('duitku')
    apikey: string,
    environment: string,
    mailstudents: string,
    mailteachers: string,
    mailadmins: string,
    callbackNote: string)     // get_string('log_callback', 'enrol_duitku')

  /** A row of the `enrol` table. */
  datatype Instance = Instance(enrol: string, status: int, enrolperiod: int, roleid: int)

  /** One call of `enrol_user`. */
  datatype EnrolCall = EnrolCall(instanceid: int, userid: int, roleid: int, timestart: int, timeend: int)

  /** The natural key the script finds its `enrol_duitku` row by. */
  datatype RowKey = RowKey(userid: int, courseid: int, instanceid: int, reference: string)

  /** The columns of an `enrol_duitku` row the script touches. */
  datatype Row = Row(id: int, paymentStatus: string, pendingReason: string, timeUpdated: int)

  datatype Recipient = Person(id: int) | SupportUser

  datatype MailKind = StudentMail | TeacherMail | AdminMail

  /** One `email_to_user` attempt. */
  datatype Mail = Mail(kind: MailKind, to: Recipient, from: Recipient)

  /**
   * What the script can see and change: users, courses and enrol instances by
   * id, the course updaters ordered by role authority, the site admins, the
   * `enrol_duitku` rows, and the enrolments and mails made so far.
   */
  datatype Db = Db(
    users: set<int>,
    courses: set<int>,
    instances: map<int, Instance>,
    teachers: map<int, seq<int>>,
    admins: seq<int>,
    rows: map<RowKey, Row>,
    enrolments: seq<EnrolCall>,
    mails: seq<Mail>)

  /** What one callback did: its outcome, the state after it and the gateway requests it sent. */
  datatype Run = Run(outcome: Outcome, db: Db, posts: seq<HttpPost>)

  /** The parameters `required_param` demands, in the order the script reads them. */
  const RequiredParams: seq<string> := ["merchantCode", "amount", "merchantOrderId", "productDetail",
    "additionalParam", "paymentCode", "resultCode", "merchantUserId", "reference", "signature"]

  /** The first of `names` missing from the request. */
  function FirstMissing(names: seq<string>, q: map<string, string>): (m: Option<string>)
    ensures m.None? <==> forall i :: 0 <= i < |names| ==> names[i] in q
    ensures m.Some? ==> (m.value !in q &&
      exists i :: 0 <= i < |names| && names[i] == m.value && forall j :: 0 <= j < i ==> names[j] in q)
  {
    if names == [] then None
    else if names[0] !in q then Some(names[0])
    else
      var m := FirstMissing(names[1..], q);
      assert m.Some? ==> exists i :: (1 <= i < |names| && names[i] == m.value &&
        forall j :: 1 <= j < i ==> names[j] in q);
      m
  }

  /**
   * Lines 43-52: reads the ten parameters with `required_param`, in order;
   * the first one missing stops the script.
   */
  function ReadParams(q: map<string, string>): (r: Result<Params, Reason>)
    ensures r.Ok? <==> forall i :: 0 <= i < |RequiredParams| ==> RequiredParams[i] in q
    ensures r.Err? ==> (r.error.MissingParam? && r.error.name !in q && exists i ::
      0 <= i < |RequiredParams| && RequiredParams[i] == r.error.name && forall j :: 0 <= j < i ==> RequiredParams[j] in q)
    ensures r.Ok? ==> (
      && "merchantCode" in q && "amount" in q && "merchantOrderId" in q && "productDetail" in q
      && "additionalParam" in q && "paymentCode" in q && "resultCode" in q && "merchantUserId" in q
      && "reference" in q && "signature" in q
      && r.value == Params(q["merchantCode"], q["amount"], q["merchantOrderId"], q["productDetail"],
           q["additionalParam"], q["paymentCode"], q["resultCode"], q["merchantUserId"],
           q["reference"], q["signature"]))
  {
    match FirstMissing(RequiredParams, q)
    case Some(name) => Err(MissingParam(name))
    case None =>
      assert RequiredParams[0] in q && RequiredParams[1] in q && RequiredParams[2] in q;
      assert RequiredParams[3] in q && RequiredParams[4] in q && RequiredParams[5] in q;
      assert RequiredParams[6] in q && RequiredParams[7] in q && RequiredParams[8] in q;
      assert RequiredParams[9] in q;
      Ok(Params(q["merchantCode"], q["amount"], q["merchantOrderId"], q["productDetail"],
        q["additionalParam"], q["paymentCode"], q["resultCode"], q["merchantUserId"],
        q["reference"], q["signature"]))
  }

  /** The string whose MD5 the callback's signature must equal. */
  function CallbackSignatureInput(p: Params, apikey: string): (s: string)
    ensures |s| == |p.merchantCode| + |p.amount| + |p.merchantOrderId| + |apikey|
    ensures s[..|p.merchantCode| + |p.amount|] == p.merchantCode + p.amount
    ensures s[|p.merchantCode| + |p.amount|..|s| - |apikey|] == p.merchantOrderId
    ensures s[|s| - |apikey|..] == apikey
  {
    p.merchantCode + p.amount + p.merchantOrderId + apikey
  }

  /** userid, courseid and instanceid are the integer values of segments 1, 2 and 3. */
  function OrderIds(custom: seq<string>): (ids: Ids)
    requires |custom| >= 4
    ensures IntMin <= ids.userid <= IntMax && IntMin <= ids.courseid <= IntMax && IntMin <= ids.instanceid <= IntMax
  {
    Ids(IntCast(custom[1]), IntCast(custom[2]), IntCast(custom[3]))
  }

  /** The gates before any lookup, in the script's order. */
  function Authenticate(p: Params, apikey: string, md5: string -> string): (r: Result<Ids, Reason>)
    ensures r.Ok? <==> (
      && |Explode('-', p.merchantOrderId)| >= 4
      && !Empty(p.merchantCode) && !Empty(p.amount) && !Empty(p.merchantOrderId) && !Empty(p.signature)
      && p.signature == md5(CallbackSignatureInput(p, apikey))
      && p.resultCode == CheckStatusSuccess)
    ensures r.Ok? ==> r.value == OrderIds(Explode('-', p.merchantOrderId))
    ensures r.Err? ==> r.error in {InvalidOrderId, BadParameter, BadSignature, PaymentFailed}
  {
    var custom := Explode('-', p.merchantOrderId);
    if |custom| < 4 then Err(InvalidOrderId)
    else if Empty(p.merchantCode) || Empty(p.amount) || Empty(p.merchantOrderId) || Empty(p.signature)
    then Err(BadParameter)
    else if p.signature != md5(CallbackSignatureInput(p, apikey)) then Err(BadSignature)
    else if p.resultCode != CheckStatusSuccess then Err(PaymentFailed)
    else Ok(OrderIds(custom))
  }

  /** An enrol instance the script accepts: of this plugin and enabled. */
  predicate Active(inst: Instance)
  {
    inst.enrol == "duitku" && inst.status == 0
  }

  /** The lookups with MUST_EXIST: user, then course, then the enrol instance. */
  function Lookup(db: Db, ids: Ids): (r: Result<Instance, Reason>)
    ensures r.Ok? <==> (ids.userid in db.users && ids.courseid in db.courses
      && ids.instanceid in db.instances && Active(db.instances[ids.instanceid]))
    ensures r.Ok? ==> r.value == db.instances[ids.instanceid]
  {
    if ids.userid !in db.users then Err(UserNotFound)
    else if ids.courseid !in db.courses then Err(CourseNotFound)
    else if ids.instanceid !in db.instances || !Active(db.instances[ids.instanceid]) then Err(InstanceNotFound)
    else Ok(db.instances[ids.instanceid])
  }

  /**
   * The enrolment window: unlimited (0, 0) when the period is 0, else from
   * now for the period. The stored period is signed, and a negative one
   * gives an end before the start.
   */
  function EnrolWindow(enrolperiod: int, now: nat): (w: (int, int))
    ensures enrolperiod == 0 ==> w == (0, 0)
    ensures enrolperiod != 0 ==> w.0 == now && w.1 - w.0 == enrolperiod
    ensures w.0 <= w.1 <==> enrolperiod >= 0
  {
    if enrolperiod != 0 then (now, now + enrolperiod) else (0, 0)
  }

  /** The re-check passes only for a body whose statusCode is the success code. */
  predicate Confirmed(body: Option<string>, statusOf: string -> Option<string>)
  {
    body.Some? && statusOf(body.value) == Some(CheckStatusSuccess)
  }

  /** The row as `update_record` leaves it. */
  function UpdatedRow(row: Row, resultcode: string, note: string, stamp: nat): (r: Row)
    ensures r.id == row.id
    ensures r.paymentStatus == resultcode && r.pendingReason == note && r.timeUpdated == stamp
  {
    row.(paymentStatus := resultcode, pendingReason := note, timeUpdated := stamp)
  }

  /** The teacher: the first course updater by authority, if there is one. */
  function Teacher(teachers: map<int, seq<int>>, courseid: int): (t: Option<int>)
    ensures t.Some? <==> (courseid in teachers && |teachers[courseid]| > 0)
    ensures t.Some? ==> t.value == teachers[courseid][0]
  {
    if courseid in teachers && |teachers[courseid]| > 0 then Some(teachers[courseid][0]) else None
  }

  /** One admin mail per admin, in order, each from the student. */
  function AdminMails(admins: seq<int>, userid: int): (ms: seq<Mail>)
    ensures |ms| == |admins|
    ensures forall i :: 0 <= i < |admins| ==> ms[i] == Mail(AdminMail, Person(admins[i]), Person(userid))
  {
    if admins == [] then []
    else AdminMails(admins[..|admins| - 1], userid) + [Mail(AdminMail, Person(admins[|admins| - 1]), Person(userid))]
  }

  /** Lines 172-184: the student mail, from the teacher or else the support user. */
  function StudentMails(mailstudents: string, teacher: Option<int>, userid: int): (ms: seq<Mail>)
    ensures |ms| == if Empty(mailstudents) then 0 else 1
    ensures forall i :: 0 <= i < |ms| ==> (ms[i].kind == StudentMail && ms[i].to == Person(userid)
      && ms[i].from == if teacher.Some? then Person(teacher.value) else SupportUser)
  {
    if Empty(mailstudents) then []
    else [Mail(StudentMail, Person(userid), if teacher.Some? then Person(teacher.value) else SupportUser)]
  }

  /** Lines 186-196: the teacher mail, only when there is a teacher. */
  function TeacherMails(mailteachers: string, teacher: Option<int>, userid: int): (ms: seq<Mail>)
    ensures |ms| == if Empty(mailteachers) || teacher.None? then 0 else 1
    ensures forall i :: 0 <= i < |ms| ==> (teacher.Some? && ms[i].kind == TeacherMail
      && ms[i].to == Person(teacher.value) && ms[i].from == Person(userid))
  {
    if Empty(mailteachers) || teacher.None? then [] else [Mail(TeacherMail, Person(teacher.value), Person(userid))]
  }

  /** The mails sent after a successful enrolment. */
  function Notifications(teachers: map<int, seq<int>>, admins: seq<int>, cfg: Config, courseid: int, userid: int)
    : (ms: seq<Mail>)
    ensures var teacher := Teacher(teachers, courseid);
      |ms| == (if Empty(cfg.mailstudents) then 0 else 1)
        + (if Empty(cfg.mailteachers) || teacher.None? then 0 else 1)
        + (if Empty(cfg.mailadmins) then 0 else |admins|)
  {
    var teacher := Teacher(teachers, courseid);
    StudentMails(cfg.mailstudents, teacher, userid)
    + TeacherMails(cfg.mailteachers, teacher, userid)
    + (if Empty(cfg.mailadmins) then [] else AdminMails(admins, userid))
  }

  /** The request the re-check sends: signed with the callback's merchant code and the stored key. */
  function RecheckPost(p: Params, cfg: Config, prim: Primitives): (post: HttpPost)
    ensures post.url == BaseUrl(cfg.environment) + "/transactionStatus"
    ensures post.body == prim.jsonEncode(CheckParams(p.merchantCode, p.merchantOrderId,
      prim.md5(p.merchantCode + p.merchantOrderId + cfg.apikey)))
  {
    CheckTransactionPost(p.merchantCode, cfg.apikey, p.merchantOrderId, BaseUrl(cfg.environment), prim)
  }

  /** What the script knows once every gate before the gateway re-check has passed. */
  datatype Admitted = Admitted(p: Params, ids: Ids, inst: Instance)

  /** Lines 36-86: the enabled check, the parameters, the four request gates and the three lookups. */
  function Admission(db: Db, cfg: Config, q: map<string, string>, md5: string -> string): (r: Result<Admitted, Reason>)
    ensures r.Ok? ==> (cfg.enabled && ReadParams(q) == Ok(r.value.p))
    ensures r.Ok? ==> (r.value.ids.userid in db.users && r.value.ids.courseid in db.courses
      && r.value.ids.instanceid in db.instances && r.value.inst == db.instances[r.value.ids.instanceid]
      && Active(r.value.inst))
  {
    if !cfg.enabled then Err(Disabled)
    else match ReadParams(q)
      case Err(e) => Err(e)
      case Ok(p) =>
        match Authenticate(p, cfg.apikey, md5)
        case Err(e) => Err(e)
        case Ok(ids) =>
          match Lookup(db, ids)
          case Err(e) => Err(e)
          case Ok(inst) => Ok(Admitted(p, ids, inst))
  }

  /**
   * Lines 107-213 once the re-check has passed: the enrolment, the row update
   * and the mails. A missing row stops the script after the enrolment.
   */
  function Commit(db: Db, cfg: Config, a: Admitted, window: (int, int), stamp: nat): (run: Run)
    ensures |run.db.enrolments| == |db.enrolments| + 1 && run.db.enrolments[..|db.enrolments|] == db.enrolments
    ensures run.outcome == Enrolled(a.ids) || run.outcome == Rejected(RowNotFound)
    ensures run.posts == []
    ensures run.db.rows.Keys == db.rows.Keys
    ensures run.db.users == db.users && run.db.courses == db.courses && run.db.instances == db.instances
  {
    var call := EnrolCall(a.ids.instanceid, a.ids.userid, a.inst.roleid, window.0, window.1);
    var enrolled := db.(enrolments := db.enrolments + [call]);
    var key := RowKey(a.ids.userid, a.ids.courseid, a.ids.instanceid, a.p.reference);
    if key !in db.rows then Run(Rejected(RowNotFound), enrolled, [])
    else
      var rows := db.rows[key := UpdatedRow(db.rows[key], a.p.resultCode, cfg.callbackNote, stamp)];
      var mails := db.mails + Notifications(db.teachers, db.admins, cfg, a.ids.courseid, a.ids.userid);
      Run(Enrolled(a.ids), enrolled.(rows := rows, mails := mails), [])
  }

  /**
   * The whole script, from the enabled check to the last mail, as a function
   * of the state before it, the request `q`, the clock `now` (time(), in
   * seconds), the stamp written to timeupdated, and the gateway's answers.
   */
  function Handle(db: Db, cfg: Config, q: map<string, string>, now: nat, stamp: nat,
                  prim: Primitives, respond: HttpPost -> HttpReply): (run: Run)
    ensures |run.posts| <= 1
    ensures run.db.users == db.users && run.db.courses == db.courses && run.db.instances == db.instances
    ensures run.db.teachers == db.teachers && run.db.admins == db.admins
    ensures run.db.rows.Keys == db.rows.Keys
  {
    match Admission(db, cfg, q, prim.md5)
    case Err(e) => Run(Rejected(e), db, [])
    case Ok(a) =>
      var window := EnrolWindow(a.inst.enrolperiod, now);
      var post := RecheckPost(a.p, cfg, prim);
      if !Confirmed(respond(post).body, prim.statusOf) then Run(Rejected(Unconfirmed), db, [post])
      else Commit(db, cfg, a, window, stamp).(posts := [post])
  }

  /** Lines 88-94: the start and end times passed to `enrol_user`. */
  method SetWindow(enrolperiod: int, now: nat) returns (timestart: int, timeend: int)
    ensures (timestart, timeend) == EnrolWindow(enrolperiod, now)
  {
    if enrolperiod != 0 {
      timestart := now;
      timeend := timestart + enrolperiod;
    } else {
      timestart := 0;
      timeend := 0;
    }
  }

  /** The site's state, updated in place by the script. */
  class Site {
    var users: set<int>
    var courses: set<int>
    var instances: map<int, Instance>
    var teachers: map<int, seq<int>>
    var admins: seq<int>
    var rows: map<RowKey, Row>
    var enrolments: seq<EnrolCall>
    var mails: seq<Mail>

    constructor (db: Db)
      ensures Snapshot() == db
    {
      users, courses, instances, teachers := db.users, db.courses, db.instances, db.teachers;
      admins, rows, enrolments, mails := db.admins, db.rows, db.enrolments, db.mails;
    }

    function Snapshot(): Db
      reads this
    {
      Db(users, courses, instances, teachers, admins, rows, enrolments, mails)
    }

    /** Lines 172-213: the student, teacher and admin mail decisions. */
    method Notify(cfg: Config, courseid: int, userid: int)
      modifies this`mails
      ensures mails == old(mails) + Notifications(teachers, admins, cfg, courseid, userid)
    {
      var teacher := Teacher(teachers, courseid);
      if !Empty(cfg.mailstudents) {
        var userfrom := if teacher.Some? then Person(teacher.value) else SupportUser;
        mails := mails + [Mail(StudentMail, Person(userid), userfrom)];
      }
      if !Empty(cfg.mailteachers) && teacher.Some? {
        mails := mails + [Mail(TeacherMail, Person(teacher.value), Person(userid))];
      }
      ghost var early := mails;
      if !Empty(cfg.mailadmins) {
        NotifyAdmins(userid);
      }
      assert mails == early + (if Empty(cfg.mailadmins) then [] else AdminMails(admins, userid));
    }

    /** Lines 201-212: one mail to each admin, in order. */
    method NotifyAdmins(userid: int)
      modifies this`mails
      ensures mails == old(mails) + AdminMails(admins, userid)
    {
      var i := 0;
      while i < |admins|
        invariant 0 <= i <= |admins|
        invariant mails == old(mails) + AdminMails(admins[..i], userid)
      {
        assert admins[..i + 1][..i] == admins[..i];
        mails := mails + [Mail(AdminMail, Person(admins[i]), Person(userid))];
        i := i + 1;
      }
      assert admins[..|admins|] == admins;
    }

    /** Lines 36-86, one gate after another; nothing is changed. */
    method Admit(cfg: Config, q: map<string, string>, md5: string -> string) returns (r: Result<Admitted, Reason>)
      ensures r == Admission(Snapshot(), cfg, q, md5)
    {
      if !cfg.enabled {
        return Err(Disabled);
      }
      var read := ReadParams(q);
      if read.Err? {
        return Err(read.error);
      }
      var p := read.value;

      var custom := Explode('-', p.merchantOrderId);
      if |custom| < 4 {
        return Err(InvalidOrderId);
      }
      if Empty(p.merchantCode) || Empty(p.amount) || Empty(p.merchantOrderId) || Empty(p.signature) {
        return Err(BadParameter);
      }
      var calcsignature := md5(p.merchantCode + p.amount + p.merchantOrderId + cfg.apikey);
      if p.signature != calcsignature {
        return Err(BadSignature);
      }
      if p.resultCode != CheckStatusSuccess {
        return Err(PaymentFailed);
      }

      var userid := IntCast(custom[1]);
      var courseid := IntCast(custom[2]);
      if userid !in users {
        return Err(UserNotFound);
      }
      if courseid !in courses {
        return Err(CourseNotFound);
      }
      var instanceid := IntCast(custom[3]);
      if instanceid !in instances || !Active(instances[instanceid]) {
        return Err(InstanceNotFound);
      }
      return Ok(Admitted(p, Ids(userid, courseid, instanceid), instances[instanceid]));
    }

    /** The script from line 36 to line 213. */
    method HandleCallback(cfg: Config, q: map<string, string>, now: nat, stamp: nat,
                          prim: Primitives, net: Endpoint) returns (outcome: Outcome)
      modifies this`enrolments, this`rows, this`mails, net
      ensures var run := Handle(old(Snapshot()), cfg, q, now, stamp, prim, net.respond);
        && outcome == run.outcome
        && Snapshot() == run.db
        && net.sent == old(net.sent) + run.posts
    {
      ghost var db0 := Snapshot();
      var admitted := Admit(cfg, q, prim.md5);
      if admitted.Err? {
        return Rejected(admitted.error);
      }
      var a := admitted.value;
      assert Admission(db0, cfg, q, prim.md5) == Ok(a);

      var timestart, timeend := SetWindow(a.inst.enrolperiod, now);

      var duitkuhelper := new Helper(a.p.merchantCode, cfg.apikey, a.p.merchantOrderId, cfg.environment);
      var requestdata := duitkuhelper.CheckTransaction(prim, net);
      ghost var post := RecheckPost(a.p, cfg, prim);
      assert Snapshot() == db0;
      assert requestdata.request == net.respond(post).body;
      if !Confirmed(requestdata.request, prim.statusOf) {
        return Rejected(Unconfirmed);
      }
      outcome := CommitCallback(cfg, a, (timestart, timeend), stamp);
    }

    /** Lines 107-213: enrol, update the row, send the mails. */
    method CommitCallback(cfg: Config, a: Admitted, window: (int, int), stamp: nat) returns (outcome: Outcome)
      modifies this`enrolments, this`rows, this`mails
      ensures var run := Commit(old(Snapshot()), cfg, a, window, stamp);
        outcome == run.outcome && Snapshot() == run.db
    {
      ghost var db0 := Snapshot();
      enrolments := enrolments + [EnrolCall(a.ids.instanceid, a.ids.userid, a.inst.roleid, window.0, window.1)];
      ghost var enrolled := db0.(enrolments := enrolments);
      assert Snapshot() == enrolled;

      var key := RowKey(a.ids.userid, a.ids.courseid, a.ids.instanceid, a.p.reference);
      if key !in rows {
        return Rejected(RowNotFound);
      }
      rows := rows[key := UpdatedRow(rows[key], a.p.resultCode, cfg.callbackNote, stamp)];

      Notify(cfg, a.ids.courseid, a.ids.userid);
      assert Snapshot() == enrolled.(rows := rows, mails := mails);
      return Enrolled(a.ids);
    }
  }
}
