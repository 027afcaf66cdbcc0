/** The chat view: conversations synthesised from appointments, merged with
    the bot conversation and the backend's conversations, and the state
    updates driven by the socket events and by sending a message. */
module Chat {
  import opened Wrappers
  import opened Strings

  /** Id of the assistant; also the id of its conversation. */
  const BotId: string := "bot_medical_advisor"

  const WelcomeText: string :=
    "Bonjour ! Je suis MediBot, votre assistant médical IA. Posez-moi vos questions médicales pour des conseils rapides et précis !"

  const SendFailedAlert: string := "Erreur lors de l'envoi du message. Veuillez réessayer."

  /** The small identity projection messages and conversations carry. */
  datatype Party = Party(id: string, firstName: string, lastName: string)

  /** A chat message. An empty `conversationId` stands for a payload whose
      id is missing (both are falsy). Times are milliseconds. */
  datatype Message = Message(
    id: string,
    content: string,
    sender: Party,
    receiver: Party,
    createdAt: int,
    conversationId: string,
    appointmentId: Option<string>,
    readAt: Option<int>)

  /** An appointment's patient: either only an id or the embedded profile. */
  datatype PatientRef = PatientId(id: string) | PatientProfile(profile: Party)

  datatype Appointment = Appointment(
    id: string,
    doctor: Party,
    patient: PatientRef,
    status: string,
    date: int,
    time: string)

  datatype Conversation = Conversation(
    conversationId: string,
    lastMessage: Option<Message>,
    unreadCount: int,
    participants: seq<Party>,
    latestAppointment: Option<Appointment>,
    isBot: bool)

  // ---------------------------------------------------------------------
  // Conversation ids and counterparts
  // ---------------------------------------------------------------------

  /** `conv_` followed by the two user ids, sorted, joined with `_`. */
  function ConversationId(a: string, b: string): (r: string)
    ensures |r| == 6 + |a| + |b| && r[..5] == "conv_"
  {
    var lo, hi := if Lt(b, a) then b else a, if Lt(b, a) then a else b;
    "conv_" + lo + "_" + hi
  }

  /** The smaller id comes first. */
  lemma ConversationIdSorted(a: string, b: string)
    ensures Le(a, b) ==> ConversationId(a, b) == "conv_" + a + "_" + b
    ensures Le(b, a) ==> ConversationId(a, b) == "conv_" + b + "_" + a
  {
    if Lt(a, b) {
      LtAsymmetric(a, b);
    }
    if a == b {
      LtIrreflexive(a);
    }
  }

  /** Both participants compute the same id for their conversation. */
  lemma ConversationIdSymmetric(a: string, b: string)
    ensures ConversationId(a, b) == ConversationId(b, a)
  {
    LtTrichotomy(a, b);
    ConversationIdSorted(a, b);
    ConversationIdSorted(b, a);
  }

  /** The counterpart of an appointment: the patient for a doctor (a
      placeholder name when only the patient's id is embedded), the doctor
      otherwise. */
  function OtherUserFromAppointment(isDoctor: bool, a: Appointment): (r: Party)
    ensures !isDoctor ==> r == a.doctor
    ensures isDoctor && a.patient.PatientId? ==> r == Party(a.patient.id, "Patient", "")
    ensures isDoctor && a.patient.PatientProfile? ==> r == a.patient.profile
  {
    if isDoctor then
      match a.patient
      case PatientId(id) => Party(id, "Patient", "")
      case PatientProfile(p) => p
    else a.doctor
  }

  /** A participant other than the signed-in user (every participant counts
      as other when no user is signed in). */
  predicate IsOther(p: Party, userId: Option<string>) {
    userId.None? || p.id != userId.value
  }

  /** `participants.find(p => p._id !== user?.data?.id)`: the first
      participant other than the user. */
  function OtherUserFromConversation(userId: Option<string>, c: Conversation): (r: Option<Party>)
    ensures r.Some? ==> IsOther(r.value, userId)
    ensures r.Some? ==> exists i :: 0 <= i < |c.participants| && c.participants[i] == r.value &&
                                    forall j :: 0 <= j < i ==> !IsOther(c.participants[j], userId)
    ensures r.None? <==> forall p :: p in c.participants ==> !IsOther(p, userId)
  {
    FirstOther(c.participants, userId)
  }

  function FirstOther(ps: seq<Party>, userId: Option<string>): (r: Option<Party>)
    ensures r.Some? ==> IsOther(r.value, userId)
    ensures r.Some? ==> exists i :: 0 <= i < |ps| && ps[i] == r.value && forall j :: 0 <= j < i ==> !IsOther(ps[j], userId)
    ensures r.None? <==> forall p :: p in ps ==> !IsOther(p, userId)
  {
    if ps == [] then None
    else if IsOther(ps[0], userId) then Some(ps[0])
    else
      var r := FirstOther(ps[1..], userId);
      assert forall k :: 0 <= k < |ps| - 1 ==> ps[1..][k] == ps[k + 1];
      r
  }

  /** The conversation id an appointment belongs to. */
  function AppointmentConversationId(userId: string, isDoctor: bool, a: Appointment): string {
    ConversationId(userId, OtherUserFromAppointment(isDoctor, a).id)
  }

  // ---------------------------------------------------------------------
  // Lists of conversations keyed by id
  // ---------------------------------------------------------------------

  function Ids(s: seq<Conversation>): (r: seq<string>)
    ensures |r| == |s|
    ensures forall i :: 0 <= i < |s| ==> r[i] == s[i].conversationId
  {
    seq(|s|, i requires 0 <= i < |s| => s[i].conversationId)
  }

  ghost predicate NoDuplicates(s: seq<string>) {
    forall i, j :: 0 <= i < j < |s| ==> s[i] != s[j]
  }

  ghost predicate UniqueIds(s: seq<Conversation>) {
    NoDuplicates(Ids(s))
  }

  /** `list.find(c => c.conversationId === id)`, as an index. */
  function IndexOf(s: seq<Conversation>, id: string): (r: Option<nat>)
    ensures r.Some? ==> r.value < |s| && s[r.value].conversationId == id
    ensures r.Some? ==> forall j :: 0 <= j < r.value ==> s[j].conversationId != id
    ensures r.None? <==> id !in Ids(s)
  {
    if s == [] then None
    else if s[0].conversationId == id then Some(0)
    else
      var r := IndexOf(s[1..], id);
      assert Ids(s) == [s[0].conversationId] + Ids(s[1..]);
      if r.Some? then Some(r.value + 1) else None
  }

  /** The ids of a list in first-seen order, each once: the reference
      against which the merge is checked. */
  function FirstSeen(ids: seq<string>): (r: seq<string>)
    ensures forall x :: x in r <==> x in ids
    ensures NoDuplicates(r)
  {
    if ids == [] then []
    else
      var init, x := ids[..|ids| - 1], ids[|ids| - 1];
      assert ids == init + [x];
      if x in init then FirstSeen(init) else FirstSeen(init) + [x]
  }

  // ---------------------------------------------------------------------
  // Folding appointments into conversations
  // ---------------------------------------------------------------------

  /** One step of the appointment fold. */
  function AddAppointment(acc: seq<Conversation>, a: Appointment, userId: string, isDoctor: bool): seq<Conversation> {
    var other := OtherUserFromAppointment(isDoctor, a);
    var cid := ConversationId(userId, other.id);
    match IndexOf(acc, cid)
    case Some(k) =>
      var existingDate := if acc[k].latestAppointment.Some? then acc[k].latestAppointment.value.date else 0;
      if a.date > existingDate then acc[k := acc[k].(latestAppointment := Some(a))] else acc
    case None =>
      acc + [Conversation(cid, None, 0, [other], Some(a), false)]
  }

  /** The conversations the appointments yield, folded left to right. */
  function AppointmentConversations(appts: seq<Appointment>, userId: string, isDoctor: bool): (r: seq<Conversation>)
    ensures |r| <= |appts|
    decreases |appts|
  {
    if appts == [] then []
    else AddAppointment(AppointmentConversations(appts[..|appts| - 1], userId, isDoctor), appts[|appts| - 1], userId, isDoctor)
  }

  /** A conversation made from appointments: nothing read or sent yet, one
      participant whose pair key is the conversation id, and as latest
      appointment one of the given appointments with that key. */
  ghost predicate AppointmentEntry(c: Conversation, appts: seq<Appointment>, userId: string, isDoctor: bool) {
    && c.unreadCount == 0
    && c.lastMessage.None?
    && !c.isBot
    && |c.participants| == 1
    && ConversationId(userId, c.participants[0].id) == c.conversationId
    && c.latestAppointment.Some?
    && c.latestAppointment.value in appts
    && AppointmentConversationId(userId, isDoctor, c.latestAppointment.value) == c.conversationId
  }

  /** The appointment's conversation is listed, and its latest appointment
      is at least as recent. */
  ghost predicate Covered(r: seq<Conversation>, b: Appointment, userId: string, isDoctor: bool) {
    exists k :: 0 <= k < |r| && r[k].conversationId == AppointmentConversationId(userId, isDoctor, b)
                && r[k].latestAppointment.Some? && b.date <= r[k].latestAppointment.value.date
  }

  /** The appointment fold yields one conversation per pair key. */
  lemma {:induction false} AppointmentConversationsUnique(appts: seq<Appointment>, userId: string, isDoctor: bool)
    ensures UniqueIds(AppointmentConversations(appts, userId, isDoctor))
  {
    if appts != [] {
      var init, a := appts[..|appts| - 1], appts[|appts| - 1];
      AppointmentConversationsUnique(init, userId, isDoctor);
      var acc := AppointmentConversations(init, userId, isDoctor);
      var cid := AppointmentConversationId(userId, isDoctor, a);
      match IndexOf(acc, cid)
      case Some(k) =>
        assert Ids(AddAppointment(acc, a, userId, isDoctor)) == Ids(acc);
      case None =>
        assert Ids(AddAppointment(acc, a, userId, isDoctor)) == Ids(acc) + [cid];
        NoDuplicatesAppend(Ids(acc), cid);
    }
  }

  /** Appending an id not yet listed keeps the ids distinct. */
  lemma NoDuplicatesAppend(s: seq<string>, x: string)
    requires NoDuplicates(s) && x !in s
    ensures NoDuplicates(s + [x])
  {
    var r := s + [x];
    forall i, j | 0 <= i < j < |r| ensures r[i] != r[j] {
      if j < |s| {
        assert r[i] == s[i] && r[j] == s[j];
      } else {
        assert r[i] == s[i] && r[j] == x;
      }
    }
  }

  /** Every conversation of the fold is an appointment conversation whose
      latest appointment is one of the inputs with its pair key. */
  lemma {:induction false} AppointmentConversationsEntries(appts: seq<Appointment>, userId: string, isDoctor: bool)
    ensures forall k :: 0 <= k < |AppointmentConversations(appts, userId, isDoctor)| ==>
      AppointmentEntry(AppointmentConversations(appts, userId, isDoctor)[k], appts, userId, isDoctor)
  {
    if appts != [] {
      var init, a := appts[..|appts| - 1], appts[|appts| - 1];
      assert appts == init + [a];
      AppointmentConversationsEntries(init, userId, isDoctor);
      var acc := AppointmentConversations(init, userId, isDoctor);
      var r := AddAppointment(acc, a, userId, isDoctor);
      var cid := AppointmentConversationId(userId, isDoctor, a);
      match IndexOf(acc, cid)
      case Some(k0) =>
        assert |r| == |acc|;
        forall k | 0 <= k < |r| ensures AppointmentEntry(r[k], appts, userId, isDoctor) {
          assert AppointmentEntry(acc[k], init, userId, isDoctor);
          assert r[k] == acc[k] || (k == k0 && r[k] == acc[k].(latestAppointment := Some(a)));
        }
      case None =>
        assert r == acc + [Conversation(cid, None, 0, [OtherUserFromAppointment(isDoctor, a)], Some(a), false)];
        forall k | 0 <= k < |r| ensures AppointmentEntry(r[k], appts, userId, isDoctor) {
          if k < |acc| {
            assert r[k] == acc[k] && AppointmentEntry(acc[k], init, userId, isDoctor);
          }
        }
    }
  }

  /** Folding one more appointment keeps an earlier appointment covered. */
  lemma CoveredStep(acc: seq<Conversation>, a: Appointment, b: Appointment, userId: string, isDoctor: bool)
    requires forall k :: 0 <= k < |acc| ==> acc[k].latestAppointment.Some?
    requires Covered(acc, b, userId, isDoctor)
    ensures Covered(AddAppointment(acc, a, userId, isDoctor), b, userId, isDoctor)
  {
    var k :| 0 <= k < |acc| && acc[k].conversationId == AppointmentConversationId(userId, isDoctor, b)
             && acc[k].latestAppointment.Some? && b.date <= acc[k].latestAppointment.value.date;
    var r := AddAppointment(acc, a, userId, isDoctor);
    assert r[k].conversationId == acc[k].conversationId;
    assert r[k].latestAppointment.Some? && acc[k].latestAppointment.value.date <= r[k].latestAppointment.value.date;
  }

  /** The folded appointment is covered right away. */
  lemma CoveredAdded(acc: seq<Conversation>, a: Appointment, userId: string, isDoctor: bool)
    requires forall k :: 0 <= k < |acc| ==> acc[k].latestAppointment.Some?
    ensures Covered(AddAppointment(acc, a, userId, isDoctor), a, userId, isDoctor)
  {
    var cid := AppointmentConversationId(userId, isDoctor, a);
    var r := AddAppointment(acc, a, userId, isDoctor);
    match IndexOf(acc, cid)
    case Some(k) =>
      assert r[k].conversationId == cid;
    case None =>
      assert r[|acc|].conversationId == cid;
  }

  /** Every appointment is covered by its pair's conversation, which thus
      holds the latest appointment of the pair. */
  lemma {:induction false} AppointmentConversationsCover(appts: seq<Appointment>, userId: string, isDoctor: bool)
    ensures forall b :: b in appts ==> Covered(AppointmentConversations(appts, userId, isDoctor), b, userId, isDoctor)
  {
    if appts != [] {
      var init, a := appts[..|appts| - 1], appts[|appts| - 1];
      assert appts == init + [a];
      AppointmentConversationsCover(init, userId, isDoctor);
      AppointmentConversationsEntries(init, userId, isDoctor);
      var acc := AppointmentConversations(init, userId, isDoctor);
      forall b | b in appts ensures Covered(AddAppointment(acc, a, userId, isDoctor), b, userId, isDoctor) {
        if b == a {
          CoveredAdded(acc, a, userId, isDoctor);
        } else {
          CoveredStep(acc, a, b, userId, isDoctor);
        }
      }
    }
  }

  /** One more appointment is one more step of the fold. */
  lemma AppointmentConversationsSnoc(appts: seq<Appointment>, i: nat, userId: string, isDoctor: bool)
    requires i < |appts|
    ensures AppointmentConversations(appts[..i + 1], userId, isDoctor)
            == AddAppointment(AppointmentConversations(appts[..i], userId, isDoctor), appts[i], userId, isDoctor)
  {
    assert appts[..i + 1][..i] == appts[..i];
  }

  /** The reducer callback over the appointments: look the pair's
      conversation up in the accumulator, replace its latest appointment by
      a strictly later one, or push a new conversation. */
  method AppointmentStep(acc: seq<Conversation>, appointment: Appointment, userId: string, isDoctor: bool)
    returns (r: seq<Conversation>)
    ensures r == AddAppointment(acc, appointment, userId, isDoctor)
  {
    var otherUser := OtherUserFromAppointment(isDoctor, appointment);
    var conversationId := ConversationId(userId, otherUser.id);
    var existing := IndexOf(acc, conversationId);
    r := acc;
    if existing.Some? {
      var k := existing.value;
      var existingDate := if acc[k].latestAppointment.Some? then acc[k].latestAppointment.value.date else 0;
      if appointment.date > existingDate {
        r := acc[k := acc[k].(latestAppointment := Some(appointment))];
      }
    } else {
      r := acc + [Conversation(conversationId, None, 0, [otherUser], Some(appointment), false)];
    }
  }

  /** The `reduce` over the appointments, one callback per appointment. */
  method FoldAppointments(appts: seq<Appointment>, userId: string, isDoctor: bool) returns (acc: seq<Conversation>)
    ensures acc == AppointmentConversations(appts, userId, isDoctor)
  {
    acc := [];
    var i := 0;
    while i < |appts|
      invariant 0 <= i <= |appts|
      invariant acc == AppointmentConversations(appts[..i], userId, isDoctor)
    {
      acc := AppointmentStep(acc, appts[i], userId, isDoctor);
      AppointmentConversationsSnoc(appts, i, userId, isDoctor);
      i := i + 1;
    }
    assert appts[..i] == appts;
  }

  // ---------------------------------------------------------------------
  // Merging the bot, backend and appointment conversations
  // ---------------------------------------------------------------------

  /** The incoming message replaces the kept one when none is kept or the
      incoming one is strictly newer. */
  function NewerMessage(kept: Option<Message>, incoming: Option<Message>): Option<Message> {
    if incoming.Some? && (kept.None? || incoming.value.createdAt > kept.value.createdAt) then incoming else kept
  }

  function NewerAppointment(kept: Option<Appointment>, incoming: Option<Appointment>): Option<Appointment> {
    if incoming.Some? && (kept.None? || incoming.value.date > kept.value.date) then incoming else kept
  }

  /** One step of the merge. */
  function MergeOne(acc: seq<Conversation>, conv: Conversation): seq<Conversation> {
    match IndexOf(acc, conv.conversationId)
    case None => acc + [conv]
    case Some(k) =>
      acc[k := acc[k].(
        lastMessage := NewerMessage(acc[k].lastMessage, conv.lastMessage),
        latestAppointment := NewerAppointment(acc[k].latestAppointment, conv.latestAppointment),
        unreadCount := acc[k].unreadCount + conv.unreadCount)]
  }

  function Merged(convs: seq<Conversation>): (r: seq<Conversation>)
    ensures |r| <= |convs|
    decreases |convs|
  {
    if convs == [] then [] else MergeOne(Merged(convs[..|convs| - 1]), convs[|convs| - 1])
  }

  /** The merge keeps one entry per id, in first-seen order. */
  lemma {:induction false} MergedIds(convs: seq<Conversation>)
    ensures Ids(Merged(convs)) == FirstSeen(Ids(convs))
  {
    if convs != [] {
      var init, x := convs[..|convs| - 1], convs[|convs| - 1];
      MergedIds(init);
      var m := Merged(init);
      assert Ids(convs) == Ids(init) + [x.conversationId];
      assert Ids(convs)[..|convs| - 1] == Ids(init);
      MergeOneIds(m, x);
    }
  }

  /** A merge step adds the id of a conversation not yet listed and leaves
      the ids alone otherwise. */
  lemma MergeOneIds(m: seq<Conversation>, x: Conversation)
    ensures IndexOf(m, x.conversationId).None? ==> Ids(MergeOne(m, x)) == Ids(m) + [x.conversationId]
    ensures IndexOf(m, x.conversationId).Some? ==> Ids(MergeOne(m, x)) == Ids(m)
  {
    match IndexOf(m, x.conversationId)
    case None =>
      assert Ids(MergeOne(m, x)) == Ids(m) + [x.conversationId];
    case Some(k) =>
      assert Ids(MergeOne(m, x)) == Ids(m);
  }

  /** Hence the merged list has no two entries with the same id, and the
      first input (the bot conversation) gives the first entry. */
  lemma MergedUniqueAndFirst(convs: seq<Conversation>)
    ensures UniqueIds(Merged(convs))
    ensures forall id :: id in Ids(Merged(convs)) <==> id in Ids(convs)
    ensures convs != [] ==> |Merged(convs)| > 0 && Merged(convs)[0].conversationId == convs[0].conversationId
  {
    MergedIds(convs);
    if convs != [] {
      FirstSeenHead(Ids(convs));
    }
  }

  lemma {:induction false} FirstSeenHead(ids: seq<string>)
    requires ids != []
    ensures |FirstSeen(ids)| > 0 && FirstSeen(ids)[0] == ids[0]
  {
    var init := ids[..|ids| - 1];
    if init != [] {
      FirstSeenHead(init);
      assert init[0] == ids[0];
    }
  }

  /** Sum of the unread counts of the entries with the given id. */
  function SumUnread(convs: seq<Conversation>, id: string): int
    decreases |convs|
  {
    if convs == [] then 0
    else
      var x := convs[|convs| - 1];
      SumUnread(convs[..|convs| - 1], id) + (if x.conversationId == id then x.unreadCount else 0)
  }

  /** Each merged entry's unread count is the sum over all colliding inputs. */
  lemma {:induction false} MergedUnread(convs: seq<Conversation>)
    ensures forall k :: 0 <= k < |Merged(convs)| ==>
      Merged(convs)[k].unreadCount == SumUnread(convs, Merged(convs)[k].conversationId)
  {
    if convs != [] {
      var init, x := convs[..|convs| - 1], convs[|convs| - 1];
      MergedUnread(init);
      MergedUniqueAndFirst(init);
      var m := Merged(init);
      match IndexOf(m, x.conversationId)
      case None =>
        assert SumUnread(init, x.conversationId) == 0 by {
          SumUnreadAbsent(init, x.conversationId);
        }
      case Some(k0) =>
    }
  }

  lemma {:induction false} SumUnreadAbsent(convs: seq<Conversation>, id: string)
    requires id !in Ids(convs)
    ensures SumUnread(convs, id) == 0
  {
    if convs != [] {
      var init := convs[..|convs| - 1];
      assert Ids(init) == Ids(convs)[..|convs| - 1];
      SumUnreadAbsent(init, id);
    }
  }

  /** Among the inputs with the entry's id: the entry keeps no last message
      only if none has one; otherwise it keeps one of theirs, and none is
      strictly newer. */
  ghost predicate KeepsNewestMessage(e: Conversation, convs: seq<Conversation>) {
    && (e.lastMessage.None? <==>
          forall i :: 0 <= i < |convs| && convs[i].conversationId == e.conversationId ==> convs[i].lastMessage.None?)
    && (e.lastMessage.Some? ==>
          exists i :: 0 <= i < |convs| && convs[i].conversationId == e.conversationId && convs[i].lastMessage == e.lastMessage)
    && (e.lastMessage.Some? ==>
          forall i :: 0 <= i < |convs| && convs[i].conversationId == e.conversationId && convs[i].lastMessage.Some?
                      ==> convs[i].lastMessage.value.createdAt <= e.lastMessage.value.createdAt)
  }

  /** The same for the latest appointment, by date. */
  ghost predicate KeepsLatestAppointment(e: Conversation, convs: seq<Conversation>) {
    && (e.latestAppointment.None? <==>
          forall i :: 0 <= i < |convs| && convs[i].conversationId == e.conversationId ==> convs[i].latestAppointment.None?)
    && (e.latestAppointment.Some? ==>
          exists i :: 0 <= i < |convs| && convs[i].conversationId == e.conversationId && convs[i].latestAppointment == e.latestAppointment)
    && (e.latestAppointment.Some? ==>
          forall i :: 0 <= i < |convs| && convs[i].conversationId == e.conversationId && convs[i].latestAppointment.Some?
                      ==> convs[i].latestAppointment.value.date <= e.latestAppointment.value.date)
  }

  /** An entry that kept the newest message of the inputs so far still does
      after one more input, merged into it when the ids agree. */
  lemma NewestMessageStep(e: Conversation, init: seq<Conversation>, x: Conversation, e2: Conversation)
    requires KeepsNewestMessage(e, init)
    requires e2.conversationId == e.conversationId
    requires e2.lastMessage == if x.conversationId == e.conversationId then NewerMessage(e.lastMessage, x.lastMessage) else e.lastMessage
    ensures KeepsNewestMessage(e2, init + [x])
  {
    var convs := init + [x];
    assert forall i :: 0 <= i < |init| ==> convs[i] == init[i];
    assert convs[|init|] == x;
    if x.conversationId == e.conversationId && x.lastMessage.Some? && e2.lastMessage == x.lastMessage {
      assert convs[|init|].lastMessage == e2.lastMessage;
    } else if e2.lastMessage.Some? {
      var i :| 0 <= i < |init| && init[i].conversationId == e.conversationId && init[i].lastMessage == e.lastMessage;
      assert convs[i].lastMessage == e2.lastMessage;
    }
  }

  /** An input whose id was not seen before keeps its own last message. */
  lemma NewestMessageFresh(init: seq<Conversation>, x: Conversation)
    requires x.conversationId !in Ids(init)
    ensures KeepsNewestMessage(x, init + [x])
  {
    var convs := init + [x];
    assert forall i :: 0 <= i < |init| ==> convs[i] == init[i] && Ids(init)[i] == init[i].conversationId;
    assert convs[|init|] == x;
  }

  lemma LatestAppointmentStep(e: Conversation, init: seq<Conversation>, x: Conversation, e2: Conversation)
    requires KeepsLatestAppointment(e, init)
    requires e2.conversationId == e.conversationId
    requires e2.latestAppointment == if x.conversationId == e.conversationId then NewerAppointment(e.latestAppointment, x.latestAppointment) else e.latestAppointment
    ensures KeepsLatestAppointment(e2, init + [x])
  {
    var convs := init + [x];
    assert forall i :: 0 <= i < |init| ==> convs[i] == init[i];
    assert convs[|init|] == x;
    if x.conversationId == e.conversationId && x.latestAppointment.Some? && e2.latestAppointment == x.latestAppointment {
      assert convs[|init|].latestAppointment == e2.latestAppointment;
    } else if e2.latestAppointment.Some? {
      var i :| 0 <= i < |init| && init[i].conversationId == e.conversationId && init[i].latestAppointment == e.latestAppointment;
      assert convs[i].latestAppointment == e2.latestAppointment;
    }
  }

  lemma LatestAppointmentFresh(init: seq<Conversation>, x: Conversation)
    requires x.conversationId !in Ids(init)
    ensures KeepsLatestAppointment(x, init + [x])
  {
    var convs := init + [x];
    assert forall i :: 0 <= i < |init| ==> convs[i] == init[i] && Ids(init)[i] == init[i].conversationId;
    assert convs[|init|] == x;
  }

  /** One merge step, entry by entry, for the last message. */
  lemma MergeOneNewestMessage(m: seq<Conversation>, init: seq<Conversation>, x: Conversation, k: nat)
    requires UniqueIds(m)
    requires x.conversationId in Ids(m) <==> x.conversationId in Ids(init)
    requires k < |MergeOne(m, x)|
    requires k < |m| ==> KeepsNewestMessage(m[k], init)
    ensures KeepsNewestMessage(MergeOne(m, x)[k], init + [x])
  {
    var r := MergeOne(m, x);
    if k < |m| {
      match IndexOf(m, x.conversationId) {
        case Some(k0) =>
          if k != k0 {
            assert Ids(m)[k] != Ids(m)[k0];
          }
        case None =>
          assert Ids(m)[k] == m[k].conversationId;
      }
      NewestMessageStep(m[k], init, x, r[k]);
    } else {
      NewestMessageFresh(init, x);
    }
  }

  /** One merge step, entry by entry, for the latest appointment. */
  lemma MergeOneLatestAppointment(m: seq<Conversation>, init: seq<Conversation>, x: Conversation, k: nat)
    requires UniqueIds(m)
    requires x.conversationId in Ids(m) <==> x.conversationId in Ids(init)
    requires k < |MergeOne(m, x)|
    requires k < |m| ==> KeepsLatestAppointment(m[k], init)
    ensures KeepsLatestAppointment(MergeOne(m, x)[k], init + [x])
  {
    var r := MergeOne(m, x);
    if k < |m| {
      match IndexOf(m, x.conversationId) {
        case Some(k0) =>
          if k != k0 {
            assert Ids(m)[k] != Ids(m)[k0];
          }
        case None =>
          assert Ids(m)[k] == m[k].conversationId;
      }
      LatestAppointmentStep(m[k], init, x, r[k]);
    } else {
      LatestAppointmentFresh(init, x);
    }
  }

  /** Each merged entry carries the newest last message among the inputs
      with its id. */
  lemma {:induction false} MergedLastMessage(convs: seq<Conversation>)
    ensures forall k :: 0 <= k < |Merged(convs)| ==> KeepsNewestMessage(Merged(convs)[k], convs)
  {
    if convs != [] {
      var init, x := convs[..|convs| - 1], convs[|convs| - 1];
      assert convs == init + [x];
      MergedLastMessage(init);
      MergedUniqueAndFirst(init);
      forall k | 0 <= k < |Merged(convs)| ensures KeepsNewestMessage(Merged(convs)[k], convs) {
        MergeOneNewestMessage(Merged(init), init, x, k);
      }
    }
  }

  /** Each merged entry carries the latest appointment among the inputs
      with its id. */
  lemma {:induction false} MergedLatestAppointment(convs: seq<Conversation>)
    ensures forall k :: 0 <= k < |Merged(convs)| ==> KeepsLatestAppointment(Merged(convs)[k], convs)
  {
    if convs != [] {
      var init, x := convs[..|convs| - 1], convs[|convs| - 1];
      assert convs == init + [x];
      MergedLatestAppointment(init);
      MergedUniqueAndFirst(init);
      forall k | 0 <= k < |Merged(convs)| ensures KeepsLatestAppointment(Merged(convs)[k], convs) {
        MergeOneLatestAppointment(Merged(init), init, x, k);
      }
    }
  }

  /** One more conversation is one more step of the merge. */
  lemma MergedSnoc(convs: seq<Conversation>, i: nat)
    requires i < |convs|
    ensures Merged(convs[..i + 1]) == MergeOne(Merged(convs[..i]), convs[i])
  {
    assert convs[..i + 1][..i] == convs[..i];
  }

  /** The reducer callback of the merge: an entry already in the
      accumulator is updated in place, otherwise the conversation is
      pushed. */
  method MergeStep(acc: seq<Conversation>, conv: Conversation) returns (r: seq<Conversation>)
    ensures r == MergeOne(acc, conv)
  {
    var existing := IndexOf(acc, conv.conversationId);
    if existing.Some? {
      var k := existing.value;
      var e := acc[k];
      if conv.lastMessage.Some? && (e.lastMessage.None? || conv.lastMessage.value.createdAt > e.lastMessage.value.createdAt) {
        e := e.(lastMessage := conv.lastMessage);
      }
      if conv.latestAppointment.Some? && (e.latestAppointment.None? || conv.latestAppointment.value.date > e.latestAppointment.value.date) {
        e := e.(latestAppointment := conv.latestAppointment);
      }
      e := e.(unreadCount := e.unreadCount + conv.unreadCount);
      r := acc[k := e];
    } else {
      r := acc + [conv];
    }
  }

  /** The `reduce` over `[bot, ...api, ...appointment]`, one callback per
      conversation. */
  method MergeConversations(convs: seq<Conversation>) returns (acc: seq<Conversation>)
    ensures acc == Merged(convs)
  {
    acc := [];
    var i := 0;
    while i < |convs|
      invariant 0 <= i <= |convs|
      invariant acc == Merged(convs[..i])
    {
      acc := MergeStep(acc, convs[i]);
      MergedSnoc(convs, i);
      i := i + 1;
    }
    assert convs[..i] == convs;
  }

  /** The assistant's conversation, opened by its welcome message. */
  function BotConversation(user: Party, now: int): (r: Conversation)
    ensures r.conversationId == BotId && r.isBot && r.unreadCount == 0
  {
    var bot := Party(BotId, "MediBot", "IA");
    Conversation(BotId, Some(Message("bot_welcome", WelcomeText, bot, user, now, BotId, None, None)),
                 0, [bot], None, true)
  }

  // ---------------------------------------------------------------------
  // Socket events and sending
  // ---------------------------------------------------------------------

  /** A payload without a conversation id gets the one rebuilt from its
      sender and receiver. */
  function WithConversationId(m: Message): (r: Message)
    ensures r.conversationId != ""
    ensures m.conversationId != "" ==> r == m
    ensures m.conversationId == "" ==> r == m.(conversationId := ConversationId(m.sender.id, m.receiver.id))
  {
    if m.conversationId == "" then m.(conversationId := ConversationId(m.sender.id, m.receiver.id)) else m
  }

  /** A repaired message lands in the conversation the appointment fold
      built for the same pair, whichever side sent it. */
  lemma RepairedIdMatchesAppointment(m: Message, userId: string, isDoctor: bool, a: Appointment)
    requires m.conversationId == ""
    requires var other := OtherUserFromAppointment(isDoctor, a).id;
      (m.sender.id == userId && m.receiver.id == other) || (m.sender.id == other && m.receiver.id == userId)
    ensures WithConversationId(m).conversationId == AppointmentConversationId(userId, isDoctor, a)
  {
    ConversationIdSymmetric(m.sender.id, m.receiver.id);
  }

  predicate HasMessageId(msgs: seq<Message>, id: string) {
    exists i :: 0 <= i < |msgs| && msgs[i].id == id
  }

  ghost predicate UniqueMessageIds(msgs: seq<Message>) {
    forall i, j :: 0 <= i < j < |msgs| ==> msgs[i].id != msgs[j].id
  }

  /** `prev.some(msg => msg._id === m._id) ? prev : [...prev, m]`: an
      idempotent insert that never duplicates an id. */
  function AppendUnique(msgs: seq<Message>, m: Message): (r: seq<Message>)
    ensures HasMessageId(msgs, m.id) ==> r == msgs
    ensures !HasMessageId(msgs, m.id) ==> r == msgs + [m]
    ensures msgs <= r && HasMessageId(r, m.id)
    ensures UniqueMessageIds(msgs) ==> UniqueMessageIds(r)
  {
    if HasMessageId(msgs, m.id) then msgs
    else
      var r := msgs + [m];
      assert r[|msgs|].id == m.id;
      r
  }

  /** Delivering the same message twice is delivering it once. */
  lemma AppendUniqueIdempotent(msgs: seq<Message>, m: Message)
    ensures AppendUnique(AppendUnique(msgs, m), m) == AppendUnique(msgs, m)
  {
  }

  /** `updates.find(u => u._id === id)`: the first update with that id. */
  function FindMessage(updates: seq<Message>, id: string): (r: Option<Message>)
    ensures r.Some? ==> r.value.id == id
    ensures r.Some? ==> exists i :: 0 <= i < |updates| && updates[i] == r.value && forall j :: 0 <= j < i ==> updates[j].id != id
    ensures r.None? <==> !HasMessageId(updates, id)
  {
    if updates == [] then None
    else if updates[0].id == id then Some(updates[0])
    else
      var r := FindMessage(updates[1..], id);
      assert HasMessageId(updates, id) ==> HasMessageId(updates[1..], id) by {
        if HasMessageId(updates, id) {
          var i :| 0 <= i < |updates| && updates[i].id == id;
          assert updates[1..][i - 1].id == id;
        }
      }
      assert forall k :: 0 <= k < |updates| - 1 ==> updates[1..][k] == updates[k + 1];
      r
  }

  /** `messagesRead`: each message is replaced by the first update with its
      id; the list keeps its length, order and ids. */
  function ApplyReadReceipts(msgs: seq<Message>, updates: seq<Message>): (r: seq<Message>)
    ensures |r| == |msgs|
    ensures forall i :: 0 <= i < |msgs| ==> r[i].id == msgs[i].id
    ensures forall i :: 0 <= i < |msgs| && !HasMessageId(updates, msgs[i].id) ==> r[i] == msgs[i]
    ensures forall i :: 0 <= i < |msgs| && HasMessageId(updates, msgs[i].id) ==> r[i] == FindMessage(updates, msgs[i].id).value
  {
    seq(|msgs|, i requires 0 <= i < |msgs| => FindMessage(updates, msgs[i].id).GetOr(msgs[i]))
  }

  /** Applying the same receipts again changes nothing. */
  lemma ApplyReadReceiptsIdempotent(msgs: seq<Message>, updates: seq<Message>)
    ensures ApplyReadReceipts(ApplyReadReceipts(msgs, updates), updates) == ApplyReadReceipts(msgs, updates)
  {
  }

  predicate IsReceiver(m: Message, userId: Option<string>) {
    userId.Some? && m.receiver.id == userId.value
  }

  /** `newMessage` on the conversation list: the conversation with the
      message's id takes it as last message, and one more unread message
      when the signed-in user receives it; nothing else changes. */
  function BumpConversation(convs: seq<Conversation>, m: Message, userId: Option<string>): (r: seq<Conversation>)
    ensures |r| == |convs| && Ids(r) == Ids(convs)
    ensures forall i :: 0 <= i < |convs| && convs[i].conversationId != m.conversationId ==> r[i] == convs[i]
    ensures forall i :: 0 <= i < |convs| && convs[i].conversationId == m.conversationId ==>
      r[i] == convs[i].(lastMessage := Some(m),
                        unreadCount := convs[i].unreadCount + if IsReceiver(m, userId) then 1 else 0)
  {
    seq(|convs|, i requires 0 <= i < |convs| =>
      if convs[i].conversationId == m.conversationId then
        convs[i].(lastMessage := Some(m),
                  unreadCount := if IsReceiver(m, userId) then convs[i].unreadCount + 1 else convs[i].unreadCount)
      else convs[i])
  }

  function TotalUnread(convs: seq<Conversation>): int
    decreases |convs|
  {
    if convs == [] then 0 else TotalUnread(convs[..|convs| - 1]) + convs[|convs| - 1].unreadCount
  }

  /** With one entry per id, a new message raises the total unread count by
      exactly one when it is for the signed-in user and its conversation is
      listed, and leaves it unchanged otherwise. */
  lemma {:induction false} BumpTotalUnread(convs: seq<Conversation>, m: Message, userId: Option<string>)
    requires UniqueIds(convs)
    ensures TotalUnread(BumpConversation(convs, m, userId)) ==
            TotalUnread(convs) + if IsReceiver(m, userId) && m.conversationId in Ids(convs) then 1 else 0
  {
    if convs != [] {
      var n := |convs|;
      var init, x := convs[..n - 1], convs[n - 1];
      var r := BumpConversation(convs, m, userId);
      assert Ids(init) == Ids(convs)[..n - 1];
      BumpTotalUnread(init, m, userId);
      assert BumpConversation(init, m, userId) == r[..n - 1];
      assert Ids(convs) == Ids(init) + [x.conversationId];
      if x.conversationId == m.conversationId {
        assert m.conversationId !in Ids(init);
      }
    }
  }

  /** After a REST send, the selected conversation's last message. */
  function WithLastMessage(convs: seq<Conversation>, cid: string, m: Message): (r: seq<Conversation>)
    ensures |r| == |convs| && Ids(r) == Ids(convs)
    ensures forall i :: 0 <= i < |convs| && convs[i].conversationId != cid ==> r[i] == convs[i]
    ensures forall i :: 0 <= i < |convs| && convs[i].conversationId == cid ==> r[i] == convs[i].(lastMessage := Some(m))
  {
    seq(|convs|, i requires 0 <= i < |convs| =>
      if convs[i].conversationId == cid then convs[i].(lastMessage := Some(m)) else convs[i])
  }

  /** What the view sends: socket emissions and the REST send. */
  datatype Outgoing =
    | MarkAsRead(conversationId: string, userId: string)
    | BotMessage(text: string, userId: string, conversationId: string)
    | PostMessage(senderId: string, receiverId: string, content: string, appointmentId: Option<string>)

  /** The chat view's state for one signed-in user. */
  class ChatView {
    const user: Option<Party>
    const isDoctor: bool
    var conversations: seq<Conversation>
    var selected: Option<Conversation>
    var messages: seq<Message>
    var draft: string
    var isBotTyping: bool
    var outbox: seq<Outgoing>
    var lastAlert: Option<string>

    function UserId(): Option<string>
      reads this
    {
      if user.Some? then Some(user.value.id) else None
    }

    constructor (user: Option<Party>, isDoctor: bool)
      ensures this.user == user && this.isDoctor == isDoctor
      ensures conversations == [] && selected.None? && messages == [] && draft == ""
      ensures !isBotTyping && outbox == [] && lastAlert.None?
    {
      this.user := user;
      this.isDoctor := isDoctor;
      conversations := [];
      selected := None;
      messages := [];
      draft := "";
      isBotTyping := false;
      outbox := [];
      lastAlert := None;
    }

    /** `loadData`: without a user id or a token nothing is loaded. The
        appointments' body is parsed whatever the status, the conversations'
        only when it is ok; a thrown error leaves the list as it was, and a
        non-ok answer contributes an empty list. */
    method LoadData(token: Option<string>, appointments: Fetched<seq<Appointment>>,
                    apiConversations: Fetched<seq<Conversation>>, now: int)
      modifies this`conversations
      ensures user.None? || user.value.id == "" || token.None? || token.value == "" ==>
        conversations == old(conversations)
      ensures appointments.Threw? || apiConversations.Threw? ==> conversations == old(conversations)
      ensures && user.Some? && user.value.id != "" && token.Some? && token.value != ""
              && appointments.Received? && apiConversations.Received? ==>
        var appts := if appointments.response.Ok? then appointments.response.payload else [];
        var api := if apiConversations.response.Ok? then apiConversations.response.payload else [];
        conversations == Merged([BotConversation(user.value, now)] + api
                                + AppointmentConversations(appts, user.value.id, isDoctor))
    {
      if user.None? || user.value.id == "" || token.None? || token.value == "" {
        return;
      }
      if appointments.Threw? || apiConversations.Threw? {
        return;
      }
      var appts := if appointments.response.Ok? then appointments.response.payload else [];
      var api := if apiConversations.response.Ok? then apiConversations.response.payload else [];
      var fromAppointments := FoldAppointments(appts, user.value.id, isDoctor);
      conversations := MergeConversations([BotConversation(user.value, now)] + api + fromAppointments);
    }

    method Select(c: Option<Conversation>)
      modifies this`selected
      ensures selected == c
    {
      selected := c;
    }

    /** The socket's `newMessage` event. */
    method OnNewMessage(payload: Message)
      modifies this`messages, this`isBotTyping, this`conversations, this`outbox
      ensures var m := WithConversationId(payload);
        var open := selected.Some? && selected.value.conversationId == m.conversationId;
        && messages == (if open then AppendUnique(old(messages), m) else old(messages))
        && isBotTyping == (if open && m.sender.id == BotId then false else old(isBotTyping))
        && conversations == BumpConversation(old(conversations), m, UserId())
        && outbox == old(outbox) + (if open && IsReceiver(m, UserId())
                                    then [MarkAsRead(m.conversationId, UserId().value)] else [])
    {
      var m := WithConversationId(payload);
      var open := selected.Some? && selected.value.conversationId == m.conversationId;
      if open {
        messages := AppendUnique(messages, m);
        if m.sender.id == BotId {
          isBotTyping := false;
        }
      }
      conversations := BumpConversation(conversations, m, UserId());
      if open && IsReceiver(m, UserId()) {
        outbox := outbox + [MarkAsRead(m.conversationId, UserId().value)];
      }
    }

    /** The socket's `messagesRead` event. */
    method OnMessagesRead(updates: seq<Message>)
      modifies this`messages
      ensures messages == ApplyReadReceipts(old(messages), updates)
    {
      messages := ApplyReadReceipts(messages, updates);
    }

    /** The counterpart a message is sent to: none when no conversation is
        selected, the draft is blank, no user is signed in or the
        conversation has no other participant. */
    function Recipient(): (r: Option<Party>)
      reads this
      ensures r.Some? ==> selected.Some? && !IsBlank(draft) && user.Some? && user.value.id != ""
      ensures r.Some? ==> r == OtherUserFromConversation(UserId(), selected.value)
      ensures r.None? && selected.Some? && !IsBlank(draft) && user.Some? && user.value.id != "" ==>
        OtherUserFromConversation(UserId(), selected.value).None?
    {
      if selected.None? || IsBlank(draft) || user.None? || user.value.id == "" then None
      else OtherUserFromConversation(UserId(), selected.value)
    }

    /** `sendMessage`: nothing happens without a recipient; otherwise the
        bot path or the REST path runs. */
    method SendMessage(now: nat, response: Response<Message>)
      modifies this`messages, this`draft, this`isBotTyping, this`conversations, this`outbox, this`lastAlert
      ensures old(Recipient()).None? ==>
        messages == old(messages) && draft == old(draft) && isBotTyping == old(isBotTyping)
        && conversations == old(conversations) && outbox == old(outbox) && lastAlert == old(lastAlert)
      ensures old(Recipient()).Some? && selected.value.isBot ==> BotSent(now, old(messages), old(draft), old(outbox), old(conversations), old(lastAlert))
      ensures old(Recipient()).Some? && !selected.value.isBot ==>
        PersonSent(old(Recipient()).value, response, old(messages), old(draft), old(isBotTyping), old(outbox), old(conversations), old(lastAlert))
    {
      var recipient := Recipient();
      if recipient.None? {
        return;
      }
      if selected.value.isBot {
        SendToBot(now);
      } else {
        SendToPerson(recipient.value, response);
      }
    }

    /** The bot path: the user's message, tagged with the send time, is
        appended, the draft cleared, the typing indicator raised and the
        text emitted to the bot. */
    ghost predicate BotSent(now: nat, messages0: seq<Message>, draft0: string, outbox0: seq<Outgoing>,
                            conversations0: seq<Conversation>, lastAlert0: Option<string>)
      reads this
      requires user.Some?
    {
      var mine := Message("user_" + NatToString(now), draft0, user.value, Party(BotId, "MediBot", "IA"),
                          now, BotId, None, None);
      && messages == AppendUnique(messages0, mine)
      && draft == "" && isBotTyping
      && conversations == conversations0
      && outbox == outbox0 + [BotMessage(draft0, user.value.id, BotId)]
      && lastAlert == lastAlert0
    }

    /** The REST path: the post goes out; a saved message is appended and
        becomes the conversation's last message and the draft is cleared;
        a failure raises the alert, lowers the typing indicator and keeps
        the draft. */
    ghost predicate PersonSent(other: Party, response: Response<Message>, messages0: seq<Message>, draft0: string,
                               isBotTyping0: bool, outbox0: seq<Outgoing>, conversations0: seq<Conversation>,
                               lastAlert0: Option<string>)
      reads this
      requires user.Some? && selected.Some?
    {
      var appointmentId := if selected.value.latestAppointment.Some?
                           then Some(selected.value.latestAppointment.value.id) else None;
      && outbox == outbox0 + [PostMessage(user.value.id, other.id, draft0, appointmentId)]
      && (response.Ok? ==>
            && messages == AppendUnique(messages0, response.payload)
            && draft == "" && isBotTyping == isBotTyping0
            && conversations == WithLastMessage(conversations0, selected.value.conversationId, response.payload)
            && lastAlert == lastAlert0)
      && (response.Failed? ==>
            && messages == messages0 && draft == draft0 && !isBotTyping
            && conversations == conversations0 && lastAlert == Some(SendFailedAlert))
    }

    method SendToBot(now: nat)
      requires user.Some?
      modifies this`messages, this`draft, this`isBotTyping, this`outbox
      ensures BotSent(now, old(messages), old(draft), old(outbox), conversations, lastAlert)
    {
      var mine := Message("user_" + NatToString(now), draft, user.value, Party(BotId, "MediBot", "IA"),
                          now, BotId, None, None);
      messages := AppendUnique(messages, mine);
      outbox := outbox + [BotMessage(draft, user.value.id, BotId)];
      draft := "";
      isBotTyping := true;
    }

    method SendToPerson(other: Party, response: Response<Message>)
      requires user.Some? && selected.Some?
      modifies this`messages, this`draft, this`isBotTyping, this`outbox, this`conversations, this`lastAlert
      ensures PersonSent(other, response, old(messages), old(draft), old(isBotTyping), old(outbox),
                         old(conversations), old(lastAlert))
    {
      var appointmentId := if selected.value.latestAppointment.Some?
                           then Some(selected.value.latestAppointment.value.id) else None;
      outbox := outbox + [PostMessage(user.value.id, other.id, draft, appointmentId)];
      match response
      case Ok(saved) =>
        messages := AppendUnique(messages, saved);
        draft := "";
        conversations := WithLastMessage(conversations, selected.value.conversationId, saved);
      case Failed(_) =>
        lastAlert := Some(SendFailedAlert);
        isBotTyping := false;
    }
  }
}
