/** SMS bookkeeping of the phone dashboard: the message history of each phone, written by requests, by the receiver
    of every phone and by delivery trackers. Each critical section is one atomic step; steps of different goroutines
    interleave in any order. */
module SmsLedger {
  import opened Text

  const KEEP: nat := 100

  datatype Direction = Sent | Received

  datatype Status = Submitting | Accepted | Failed | Delivered | Arrived

  datatype Message = Message(id: nat, direction: Direction, peer: string, text: string, status: Status)

  // ---------------------------------------------------------------- one phone's history

  /** The last hundred. */
  function Trim<T>(s: seq<T>): (r: seq<T>)
    ensures |r| == if |s| > KEEP then KEEP else |s|
    ensures r == s[|s| - |r|..]
  {
    if |s| > KEEP then s[|s| - KEEP..] else s
  }

  function Add(ms: seq<Message>, m: Message): seq<Message> {
    Trim(ms + [m])
  }

  /** A submission result applies to message `id`, unless its delivery has been seen already. */
  function Reported(m: Message, id: nat, status: Status): Message {
    if m.id == id && m.status != Delivered then m.(status := status) else m
  }

  function Report(ms: seq<Message>, id: nat, status: Status): (r: seq<Message>)
    ensures |r| == |ms|
    ensures forall i :: 0 <= i < |ms| ==> r[i] == Reported(ms[i], id, status)
  {
    if ms == [] then [] else [Reported(ms[0], id, status)] + Report(ms[1..], id, status)
  }

  predicate Undelivered(m: Message, to: string, text: string) {
    m.direction == Sent && m.peer == to && m.text == text && (m.status == Submitting || m.status == Accepted)
  }

  /** Index of the first message a receipt of `text` by `to` can belong to, or the length. */
  function FirstUndelivered(ms: seq<Message>, to: string, text: string): (k: nat)
    ensures k <= |ms|
    ensures forall i :: 0 <= i < k ==> !Undelivered(ms[i], to, text)
    ensures k < |ms| ==> Undelivered(ms[k], to, text)
  {
    if ms == [] || Undelivered(ms[0], to, text) then 0 else 1 + FirstUndelivered(ms[1..], to, text)
  }

  function MarkReceipt(ms: seq<Message>, to: string, text: string): seq<Message> {
    var k := FirstUndelivered(ms, to, text);
    if k < |ms| then ms[k := ms[k].(status := Delivered)] else ms
  }

  /** A sent message that a receipt of `text` by `to` can belong to. */
  predicate Awaits(m: Message, to: string, text: string) {
    m.direction == Sent && m.peer == to && m.text == text && m.status in {Submitting, Accepted}
  }

  /** The first message awaiting the receipt, and no other, has become delivered; nothing changed when none awaits. */
  predicate ReceiptMarked(before: seq<Message>, after: seq<Message>, to: string, text: string) {
    || (exists i :: 0 <= i < |before| && Awaits(before[i], to, text) &&
          (forall j :: 0 <= j < i ==> !Awaits(before[j], to, text)) &&
          after == before[i := before[i].(status := Delivered)])
    || ((forall j :: 0 <= j < |before| ==> !Awaits(before[j], to, text)) && after == before)
  }

  lemma MarksFirst(ms: seq<Message>, to: string, text: string)
    ensures ReceiptMarked(ms, MarkReceipt(ms, to, text), to, text)
  {
    var k := FirstUndelivered(ms, to, text);
    assert k < |ms| ==> Awaits(ms[k], to, text);
  }

  function Find(ms: seq<Message>, id: nat): (k: nat)
    ensures k <= |ms|
    ensures forall i :: 0 <= i < k ==> ms[i].id != id
    ensures k < |ms| ==> ms[k].id == id
  {
    if ms == [] || ms[0].id == id then 0 else 1 + Find(ms[1..], id)
  }

  function MarkTracked(ms: seq<Message>, id: nat): seq<Message> {
    var k := Find(ms, id);
    if k < |ms| then ms[k := ms[k].(status := Delivered)] else ms
  }

  /** The critical sections as written, each under the phone's mutex. */
  class DashboardPhone {
    var messages: seq<Message>

    constructor ()
      ensures messages == []
    {
      messages := [];
    }

    method TrimHistory()
      modifies this
      ensures messages == Trim(old(messages))
    {
      if |messages| > KEEP {
        messages := messages[|messages| - KEEP..];
      }
    }

    method AddMessage(m: Message)
      modifies this
      ensures messages == Add(old(messages), m)
    {
      messages := messages + [m];
      TrimHistory();
    }

    method ReportSubmission(id: nat, status: Status)
      modifies this
      ensures messages == Report(old(messages), id, status)
    {
      for i := 0 to |messages|
        invariant |messages| == |old(messages)|
        invariant forall j :: 0 <= j < i ==> messages[j] == Reported(old(messages)[j], id, status)
        invariant forall j :: i <= j < |messages| ==> messages[j] == old(messages)[j]
      {
        if messages[i].id == id && messages[i].status != Delivered {
          messages := messages[i := messages[i].(status := status)];
        }
      }
    }

    /** Marks the first sent message that a receipt can belong to, and no other. */
    method MarkDelivered(to: string, text: string)
      modifies this
      ensures messages == MarkReceipt(old(messages), to, text) && ReceiptMarked(old(messages), messages, to, text)
    {
      MarksFirst(messages, to, text);
      for i := 0 to |messages|
        invariant messages == old(messages)
        invariant forall j :: 0 <= j < i ==> !Undelivered(messages[j], to, text)
      {
        if Undelivered(messages[i], to, text) {
          assert FirstUndelivered(messages, to, text) == i;
          messages := messages[i := messages[i].(status := Delivered)];
          return;
        }
      }
    }

    /** One poll of a tracker; `gone` when the message is no longer kept. */
    method PollTracked(id: nat, delivered: bool) returns (gone: bool)
      modifies this
      ensures gone <==> Find(old(messages), id) == |old(messages)|
      ensures messages == if delivered then MarkTracked(old(messages), id) else old(messages)
    {
      var k := 0;
      while k < |messages| && messages[k].id != id
        invariant k <= |messages| && forall j :: 0 <= j < k ==> messages[j].id != id
      {
        k := k + 1;
      }
      assert Find(messages, id) == k;
      gone := k == |messages|;
      if !gone && delivered {
        messages := messages[k := messages[k].(status := Delivered)];
      }
    }
  }

  // ---------------------------------------------------------------- all phones and their goroutines

  /** Progress of the one request a phone's operation lock admits. */
  datatype Request = NoRequest | Numbered(id: nat, to: string, text: string) | Submitted(id: nat)

  /** Progress of a phone's receiver after it stored a message. `todo` are the phones it has yet to look at. */
  datatype Receiver =
    | Listening
    | Stored(from: string, text: string)
    | Matching(from: string, text: string, todo: seq<nat>)

  /** A message as it was added, without its status. */
  datatype Entry = Entry(id: nat, direction: Direction, peer: string, text: string)

  function Erased(m: Message): Entry {
    Entry(m.id, m.direction, m.peer, m.text)
  }

  /** A phone; `log` holds every message ever added, its status aside, and `logged` their ids. */
  datatype Phone = Phone(
    number: string, messages: seq<Message>, request: Request, receiver: Receiver, tracked: set<nat>,
    log: seq<Entry>, logged: set<nat>)
  {
    function With(m: Message): Phone {
      this.(messages := Add(messages, m), log := log + [Erased(m)], logged := logged + {m.id})
    }
  }

  datatype Receipt = Receipt(sender: string, receiver: string, text: string)

  /** A message of phone `phone` that was marked delivered because of a receipt. */
  datatype Mark = Mark(phone: nat, receiver: string, text: string)

  datatype Event =
    | Number(p: nat, to: string, text: string)
    | Store(p: nat)
    | Result(p: nat, ok: bool)
    | Receive(p: nat, from: string, text: string)
    | Snapshot(p: nat, phones: nat)
    | Match(p: nat)
    | Poll(p: nat, id: nat, delivered: bool)
    | GiveUp(p: nat, id: nat)

  predicate ValidNumber(s: string) {
    3 <= |s| <= 16 && s[0] == '+' && forall i :: 1 <= i < |s| ==> '0' <= s[i] <= '9'
  }

  /** `issued[i]` is the phone that took id `i + 1`, so the id counter is its length; then the phones, whether trackers
      are started, and counts of receipts and marks. */
  datatype System = System(
    issued: seq<nat>, phones: seq<Phone>, trackers: bool, receipts: multiset<Receipt>, marks: multiset<Mark>)
  {
    predicate Enabled(e: Event) {
      e.p < |phones| &&
      var ph := phones[e.p];
      match e
      case Number(_, to, text) => ph.request.NoRequest? && ValidNumber(to) && 1 <= |text| <= 70
      case Store(_) => ph.request.Numbered?
      case Result(_, _) => ph.request.Submitted?
      case Receive(_, _, _) => ph.receiver.Listening?
      case Snapshot(_, n) => ph.receiver.Stored? && n <= |phones|
      case Match(_) => ph.receiver.Matching?
      case Poll(_, id, _) => id in ph.tracked
      case GiveUp(_, id) => id in ph.tracked
    }

    function Step(e: Event): System
      requires Enabled(e)
    {
      var ph := phones[e.p];
      match e
      case Number(p, to, text) =>
        this.(issued := issued + [p], phones := phones[p := ph.(request := Numbered(|issued| + 1, to, text))])
      case Store(p) =>
        var m := Message(ph.request.id, Sent, ph.request.to, ph.request.text, Submitting);
        this.(phones := phones[p := ph.With(m).(request := Submitted(m.id))])
      case Result(p, ok) =>
        var id := ph.request.id;
        this.(phones := phones[p := ph.(
          messages := Report(ph.messages, id, if ok then Accepted else Failed), request := NoRequest,
          tracked := if ok && trackers then ph.tracked + {id} else ph.tracked)])
      case Receive(p, from, text) =>
        var m := Message(|issued| + 1, Received, from, text, Arrived);
        this.(issued := issued + [p], receipts := receipts + multiset{Receipt(from, ph.number, text)},
              phones := phones[p := ph.With(m).(receiver := Stored(from, text))])
      case Snapshot(p, n) =>
        this.(phones := phones[p := ph.(receiver := Matching(ph.receiver.from, ph.receiver.text, seq(n, i => i)))])
      case Match(p) =>
        if ph.receiver.todo == [] then this.(phones := phones[p := ph.(receiver := Listening)])
        else MatchOne(p)
      case Poll(p, id, delivered) =>
        if Find(ph.messages, id) == |ph.messages| then this.(phones := phones[p := ph.(tracked := ph.tracked - {id})])
        else if delivered
        then this.(phones := phones[p := ph.(messages := MarkTracked(ph.messages, id), tracked := ph.tracked - {id})])
        else this
      case GiveUp(p, id) =>
        this.(phones := phones[p := ph.(tracked := ph.tracked - {id})])
    }

    /** The receiver of phone `p` looks at the next phone: if it is the sender's, its first matching message is
        marked. */
    function MatchOne(p: nat): System
      requires p < |phones| && phones[p].receiver.Matching? && phones[p].receiver.todo != []
    {
      var r := phones[p].receiver;
      var s := r.todo[0];
      var advanced := phones[p := phones[p].(receiver := r.(todo := r.todo[1..]))];
      if s < |phones| && phones[s].number == r.from then
        var before := advanced[s].messages;
        var to := phones[p].number;
        this.(phones := advanced[s := advanced[s].(messages := MarkReceipt(before, to, r.text))],
              marks := if FirstUndelivered(before, to, r.text) < |before| then marks + multiset{Mark(s, to, r.text)}
                       else marks)
      else this.(phones := advanced)
    }
  }

  // ---------------------------------------------------------------- what every interleaving keeps

  predicate IssuedTo(id: nat, p: nat, issued: seq<nat>) {
    1 <= id <= |issued| && issued[id - 1] == p
  }

  /** Ids in a phone's log were issued to it, once each; a number taken but not yet used is in no log. */
  predicate IdsOk(ph: Phone, p: nat, issued: seq<nat>) {
    && (forall id :: id in ph.logged ==> IssuedTo(id, p, issued))
    && (ph.request.Numbered? ==> IssuedTo(ph.request.id, p, issued) && ph.request.id !in ph.logged)
    && (ph.request.Submitted? ==> ph.request.id in ph.logged && ph.request.id !in ph.tracked)
    && ph.tracked <= ph.logged
  }

  predicate LogOk(ph: Phone) {
    && (forall i :: 0 <= i < |ph.log| ==> ph.log[i].id in ph.logged)
    && (forall i, j :: 0 <= i < j < |ph.log| ==> ph.log[i].id != ph.log[j].id)
  }

  /** The history is the last hundred of everything ever added, ignoring status. */
  predicate HistoryOk(ph: Phone) {
    && |ph.messages| == (if |ph.log| > KEEP then KEEP else |ph.log|)
    && forall i :: 0 <= i < |ph.messages| ==>
         Erased(ph.messages[i]) == ph.log[|ph.log| - |ph.messages| + i]
  }

  /** Messages arrive in id order. */
  predicate ArrivalsAscend(log: seq<Entry>) {
    forall i, j :: 0 <= i < j < |log| && log[i].direction == Received && log[j].direction == Received ==>
      log[i].id < log[j].id
  }

  /** What the status of each kept message can be, given what its writers are doing. */
  predicate StatusOk(ph: Phone) {
    forall m :: m in ph.messages ==> m.id in ph.logged && MessageOk(m, ph.request, ph.tracked)
  }

  predicate MessageOk(m: Message, request: Request, tracked: set<nat>) {
    && (m.direction == Received <==> m.status == Arrived)
    && (m.status == Submitting ==> request == Submitted(m.id))
    && (request == Submitted(m.id) ==> m.status == Submitting || m.status == Delivered)
    && (m.id in tracked ==> m.status == Accepted || m.status == Delivered)
  }

  predicate PhoneOk(ph: Phone, p: nat, issued: seq<nat>) {
    IdsOk(ph, p, issued) && LogOk(ph) && HistoryOk(ph) && ArrivalsAscend(ph.log) && StatusOk(ph)
  }

  predicate Inv(s: System) {
    forall p :: 0 <= p < |s.phones| ==> PhoneOk(s.phones[p], p, s.issued)
  }

  lemma MoreIssued(ph: Phone, p: nat, issued: seq<nat>, q: nat)
    requires PhoneOk(ph, p, issued)
    ensures PhoneOk(ph, p, issued + [q])
  {
  }

  /** Kept messages have pairwise different ids. */
  lemma KeptDistinct(ph: Phone)
    requires LogOk(ph) && HistoryOk(ph)
    ensures forall i, j :: 0 <= i < j < |ph.messages| ==> ph.messages[i].id != ph.messages[j].id
  {
    forall i, j | 0 <= i < j < |ph.messages| ensures ph.messages[i].id != ph.messages[j].id {
      var d := |ph.log| - |ph.messages|;
      assert ph.log[d + i].id != ph.log[d + j].id;
    }
  }

  lemma AddAt(ms: seq<Message>, m: Message, i: nat)
    requires i < |Add(ms, m)|
    ensures var k := |ms| + 1 - |Add(ms, m)| + i;
      Add(ms, m)[i] == if k < |ms| then ms[k] else m
  {
  }

  lemma WithHistory(ph: Phone, m: Message)
    requires HistoryOk(ph)
    ensures HistoryOk(ph.With(m))
  {
    var ph' := ph.With(m);
    var d, d' := |ph.log| - |ph.messages|, |ph'.log| - |ph'.messages|;
    forall i | 0 <= i < |ph'.messages| ensures Erased(ph'.messages[i]) == ph'.log[d' + i] {
      var k := |ph.messages| + 1 - |ph'.messages| + i;
      AddAt(ph.messages, m, i);
      assert d' + i == d + k;
    }
  }

  lemma WithLog(ph: Phone, m: Message)
    requires LogOk(ph) && m.id !in ph.logged
    ensures LogOk(ph.With(m))
  {
  }

  lemma WithArrivals(ph: Phone, m: Message)
    requires LogOk(ph) && ArrivalsAscend(ph.log)
    requires m.direction == Received ==> forall id :: id in ph.logged ==> id < m.id
    ensures ArrivalsAscend(ph.With(m).log)
  {
  }

  lemma WithStatus(ph: Phone, m: Message, request: Request)
    requires forall x :: x in ph.messages ==> x.id in ph.logged && MessageOk(x, request, ph.tracked)
    requires MessageOk(m, request, ph.tracked)
    ensures forall x :: x in ph.With(m).messages ==> x.id in ph.With(m).logged && MessageOk(x, request, ph.tracked)
  {
    forall x | x in ph.With(m).messages ensures x == m || x in ph.messages {
      assert x in ph.messages + [m];
    }
  }

  lemma Assemble(ph: Phone, p: nat, issued: seq<nat>, request: Request)
    requires LogOk(ph) && HistoryOk(ph) && ArrivalsAscend(ph.log) && IdsOk(ph.(request := request), p, issued)
    requires forall x :: x in ph.messages ==> x.id in ph.logged && MessageOk(x, request, ph.tracked)
    ensures PhoneOk(ph.(request := request), p, issued)
  {
  }

  lemma StoreOk(ph: Phone, p: nat, issued: seq<nat>, m: Message)
    requires PhoneOk(ph, p, issued) && ph.request.Numbered?
    requires m == Message(ph.request.id, Sent, ph.request.to, ph.request.text, Submitting)
    ensures PhoneOk(ph.With(m).(request := Submitted(m.id)), p, issued)
  {
    WithHistory(ph, m);
    WithLog(ph, m);
    WithArrivals(ph, m);
    WithStatus(ph, m, Submitted(m.id));
    Assemble(ph.With(m), p, issued, Submitted(m.id));
  }

  lemma FreshId(ph: Phone, p: nat, issued: seq<nat>)
    requires IdsOk(ph, p, issued)
    ensures forall id :: id in ph.logged ==> id <= |issued|
  {
  }

  lemma ReceiveOk(ph: Phone, p: nat, issued: seq<nat>, m: Message)
    requires PhoneOk(ph, p, issued) && m.id == |issued| + 1 && m.direction == Received && m.status == Arrived
    ensures PhoneOk(ph.With(m), p, issued + [p])
  {
    FreshId(ph, p, issued);
    WithHistory(ph, m);
    WithLog(ph, m);
    WithArrivals(ph, m);
    assert MessageOk(m, ph.request, ph.tracked);
    WithStatus(ph, m, ph.request);
    WithIds(ph, p, issued, m);
  }

  lemma ReceiverOk(ph: Phone, p: nat, issued: seq<nat>, receiver: Receiver)
    requires PhoneOk(ph, p, issued)
    ensures PhoneOk(ph.(receiver := receiver), p, issued)
  {
  }

  lemma WithIds(ph: Phone, p: nat, issued: seq<nat>, m: Message)
    requires IdsOk(ph, p, issued) && m.id == |issued| + 1
    ensures IdsOk(ph.With(m), p, issued + [p])
  {
    forall id | id in ph.With(m).logged ensures IssuedTo(id, p, issued + [p]) {
      if id != m.id { assert IssuedTo(id, p, issued); }
    }
  }

  lemma NumberOk(ph: Phone, p: nat, issued: seq<nat>, to: string, text: string)
    requires PhoneOk(ph, p, issued) && ph.request.NoRequest?
    ensures PhoneOk(ph.(request := Numbered(|issued| + 1, to, text)), p, issued + [p])
  {
    MoreIssued(ph, p, issued, p);
  }

  /** Replacing messages one for one, changing no more than their status, keeps the history. */
  lemma SameEntries(ph: Phone, ms: seq<Message>)
    requires HistoryOk(ph) && |ms| == |ph.messages|
    requires forall i :: 0 <= i < |ms| ==> Erased(ms[i]) == Erased(ph.messages[i])
    ensures HistoryOk(ph.(messages := ms))
  {
  }

  lemma ReportedOk(m: Message, id: nat, status: Status, tracked: set<nat>, tracked': set<nat>)
    requires MessageOk(m, Submitted(id), tracked) && (status == Accepted || status == Failed) && id !in tracked
    requires tracked' == tracked || (status == Accepted && tracked' == tracked + {id})
    ensures MessageOk(Reported(m, id, status), NoRequest, tracked')
  {
  }

  lemma ReportStatus(ph: Phone, ms: seq<Message>, status: Status, tracked: set<nat>)
    requires StatusOk(ph) && ph.request.Submitted? && ph.request.id !in ph.tracked
    requires status == Accepted || status == Failed
    requires tracked == ph.tracked || (status == Accepted && tracked == ph.tracked + {ph.request.id})
    requires |ms| == |ph.messages|
    requires forall i :: 0 <= i < |ms| ==> ms[i] == Reported(ph.messages[i], ph.request.id, status)
    ensures StatusOk(ph.(messages := ms, request := NoRequest, tracked := tracked))
  {
    forall m | m in ms ensures m.id in ph.logged && MessageOk(m, NoRequest, tracked) {
      var i :| 0 <= i < |ms| && ms[i] == m;
      assert ph.messages[i] in ph.messages;
      ReportedOk(ph.messages[i], ph.request.id, status, ph.tracked, tracked);
    }
  }

  lemma ResultOk(ph: Phone, p: nat, issued: seq<nat>, ms: seq<Message>, status: Status, tracked: set<nat>)
    requires PhoneOk(ph, p, issued) && ph.request.Submitted? && (status == Accepted || status == Failed)
    requires tracked == ph.tracked || (status == Accepted && tracked == ph.tracked + {ph.request.id})
    requires |ms| == |ph.messages|
    requires forall i :: 0 <= i < |ms| ==> ms[i] == Reported(ph.messages[i], ph.request.id, status)
    ensures PhoneOk(ph.(messages := ms, request := NoRequest, tracked := tracked), p, issued)
  {
    ReportStatus(ph, ms, status, tracked);
    SameEntries(ph, ms);
    SameLog(ph, ph.(messages := ms, request := NoRequest, tracked := tracked), p, issued);
  }

  /** Steps that add no message have to keep only what concerns the messages. */
  lemma SameLog(ph: Phone, ph': Phone, p: nat, issued: seq<nat>)
    requires PhoneOk(ph, p, issued) && ph'.log == ph.log && ph'.logged == ph.logged
    requires HistoryOk(ph') && StatusOk(ph')
    requires ph'.request == ph.request || ph'.request == NoRequest
    requires ph'.tracked <= ph.tracked || (ph'.request == NoRequest && ph'.tracked <= ph.logged)
    ensures PhoneOk(ph', p, issued)
  {
  }

  /** Marking one kept message that may be marked. */
  lemma MarkOk(ph: Phone, p: nat, issued: seq<nat>, k: nat, tracked: set<nat>)
    requires PhoneOk(ph, p, issued) && k < |ph.messages| && ph.messages[k].direction == Sent
    requires tracked <= ph.tracked
    ensures
      var ms := ph.messages[k := ph.messages[k].(status := Delivered)];
      PhoneOk(ph.(messages := ms, tracked := tracked), p, issued)
  {
    var ms := ph.messages[k := ph.messages[k].(status := Delivered)];
    SameEntries(ph, ms);
    MarkStatus(ph, k, tracked);
    SameLog(ph, ph.(messages := ms, tracked := tracked), p, issued);
  }

  lemma MarkStatus(ph: Phone, k: nat, tracked: set<nat>)
    requires StatusOk(ph) && k < |ph.messages| && ph.messages[k].direction == Sent && tracked <= ph.tracked
    ensures
      var ms := ph.messages[k := ph.messages[k].(status := Delivered)];
      StatusOk(ph.(messages := ms, tracked := tracked))
  {
    var ms := ph.messages[k := ph.messages[k].(status := Delivered)];
    forall m | m in ms ensures m.id in ph.logged && MessageOk(m, ph.request, tracked) {
      var i :| 0 <= i < |ms| && ms[i] == m;
      assert ph.messages[i] in ph.messages;
    }
  }

  lemma MarkReceiptOk(ph: Phone, p: nat, issued: seq<nat>, to: string, text: string)
    requires PhoneOk(ph, p, issued)
    ensures PhoneOk(ph.(messages := MarkReceipt(ph.messages, to, text)), p, issued)
  {
    var k := FirstUndelivered(ph.messages, to, text);
    if k < |ph.messages| {
      MarkOk(ph, p, issued, k, ph.tracked);
    }
  }

  lemma UntrackOk(ph: Phone, p: nat, issued: seq<nat>, id: nat)
    requires PhoneOk(ph, p, issued)
    ensures PhoneOk(ph.(tracked := ph.tracked - {id}), p, issued)
  {
    var tracked := ph.tracked - {id};
    forall m | m in ph.messages ensures m.id in ph.logged && MessageOk(m, ph.request, tracked) {
      assert MessageOk(m, ph.request, ph.tracked);
    }
  }

  lemma PollOk(ph: Phone, p: nat, issued: seq<nat>, id: nat)
    requires PhoneOk(ph, p, issued) && id in ph.tracked && Find(ph.messages, id) < |ph.messages|
    ensures PhoneOk(ph.(messages := MarkTracked(ph.messages, id), tracked := ph.tracked - {id}), p, issued)
  {
    var k := Find(ph.messages, id);
    assert MessageOk(ph.messages[k], ph.request, ph.tracked) by { assert ph.messages[k] in ph.messages; }
    MarkOk(ph, p, issued, k, ph.tracked - {id});
  }

  /** Only phone `p` changed, and it is still in order. */
  lemma OnePhone(s: System, t: System, p: nat)
    requires Inv(s) && p < |s.phones| == |t.phones| && t.phones == s.phones[p := t.phones[p]]
    requires t.issued == s.issued || t.issued == s.issued + [p]
    requires PhoneOk(t.phones[p], p, t.issued)
    ensures Inv(t)
  {
    forall q | 0 <= q < |t.phones| ensures PhoneOk(t.phones[q], q, t.issued) {
      if q != p {
        assert t.phones[q] == s.phones[q];
        MoreIssued(s.phones[q], q, s.issued, p);
      }
    }
  }

  lemma StepInv(s: System, e: Event)
    requires Inv(s) && s.Enabled(e)
    ensures Inv(s.Step(e))
  {
    var t := s.Step(e);
    var ph := s.phones[e.p];
    assert PhoneOk(ph, e.p, s.issued);
    if e.Match? && ph.receiver.todo != [] {
      MatchInv(s, e.p);
      return;
    }
    StepPhoneOk(s, e);
    OnePhone(s, t, e.p);
  }

  /** Every step but matching changes its own phone only. */
  lemma StepPhoneOk(s: System, e: Event)
    requires s.Enabled(e) && (e.Match? ==> s.phones[e.p].receiver.todo == [])
    requires PhoneOk(s.phones[e.p], e.p, s.issued)
    ensures PhoneOk(s.Step(e).phones[e.p], e.p, s.Step(e).issued)
  {
    if e.Result? {
      ResultStepOk(s, e);
    } else if e.Number? || e.Store? || e.Receive? {
      AddStepOk(s, e);
    } else {
      OtherStepOk(s, e);
    }
  }

  lemma ResultStepOk(s: System, e: Event)
    requires s.Enabled(e) && e.Result? && PhoneOk(s.phones[e.p], e.p, s.issued)
    ensures PhoneOk(s.Step(e).phones[e.p], e.p, s.Step(e).issued)
  {
    var ph := s.phones[e.p];
    var status := if e.ok then Accepted else Failed;
    ResultOk(ph, e.p, s.issued, Report(ph.messages, ph.request.id, status), status,
             if e.ok && s.trackers then ph.tracked + {ph.request.id} else ph.tracked);
  }

  lemma AddStepOk(s: System, e: Event)
    requires s.Enabled(e) && (e.Number? || e.Store? || e.Receive?) && PhoneOk(s.phones[e.p], e.p, s.issued)
    ensures PhoneOk(s.Step(e).phones[e.p], e.p, s.Step(e).issued)
  {
    var ph := s.phones[e.p];
    match e
    case Number(p, to, text) => NumberOk(ph, p, s.issued, to, text);
    case Store(p) => StoreOk(ph, p, s.issued, Message(ph.request.id, Sent, ph.request.to, ph.request.text, Submitting));
    case Receive(p, from, text) =>
      var m := Message(|s.issued| + 1, Received, from, text, Arrived);
      ReceiveOk(ph, p, s.issued, m);
      ReceiverOk(ph.With(m), p, s.issued + [p], Stored(from, text));
  }

  lemma OtherStepOk(s: System, e: Event)
    requires s.Enabled(e) && !e.Result? && !e.Number? && !e.Store? && !e.Receive?
    requires e.Match? ==> s.phones[e.p].receiver.todo == []
    requires PhoneOk(s.phones[e.p], e.p, s.issued)
    ensures PhoneOk(s.Step(e).phones[e.p], e.p, s.Step(e).issued)
  {
    var ph := s.phones[e.p];
    match e
    case Snapshot(p, n) =>
      ReceiverOk(ph, p, s.issued, Matching(ph.receiver.from, ph.receiver.text, seq(n, i => i)));
    case Match(p) =>
      ReceiverOk(ph, p, s.issued, Listening);
    case Poll(p, id, delivered) =>
      if Find(ph.messages, id) == |ph.messages| { UntrackOk(ph, p, s.issued, id); }
      else if delivered { PollOk(ph, p, s.issued, id); }
    case GiveUp(p, id) => UntrackOk(ph, p, s.issued, id);
  }

  lemma MatchInv(s: System, p: nat)
    requires Inv(s) && p < |s.phones| && s.phones[p].receiver.Matching? && s.phones[p].receiver.todo != []
    ensures Inv(s.MatchOne(p))
  {
    var r := s.phones[p].receiver;
    var next := s.phones[p].(receiver := r.(todo := r.todo[1..]));
    assert PhoneOk(s.phones[p], p, s.issued);
    assert PhoneOk(next, p, s.issued);
    var mid := s.(phones := s.phones[p := next]);
    OnePhone(s, mid, p);
    var q := r.todo[0];
    if q < |s.phones| && s.phones[q].number == r.from {
      MarkReceiptOk(mid.phones[q], q, s.issued, s.phones[p].number, r.text);
      OnePhone(mid, s.MatchOne(p), q);
    }
  }

  // ---------------------------------------------------------------- runs

  predicate Runs(s: System, run: seq<Event>)
    decreases |run|
  {
    run == [] || (s.Enabled(run[0]) && Runs(s.Step(run[0]), run[1..]))
  }

  function End(s: System, run: seq<Event>): System
    requires Runs(s, run)
    decreases |run|
  {
    if run == [] then s else End(s.Step(run[0]), run[1..])
  }

  function NewPhone(number: string): Phone {
    Phone(number, [], NoRequest, Listening, {}, [], {})
  }

  predicate Initial(s: System) {
    s.issued == [] && s.receipts == multiset{} && s.marks == multiset{}
    && forall p :: 0 <= p < |s.phones| ==> s.phones[p] == NewPhone(s.phones[p].number)
  }

  lemma {:induction false} RunInv(s: System, run: seq<Event>)
    requires Inv(s) && Runs(s, run)
    ensures Inv(End(s, run))
    decreases |run|
  {
    if run != [] {
      StepInv(s, run[0]);
      RunInv(s.Step(run[0]), run[1..]);
    }
  }

  lemma UniqueIds(s: System, p: nat, i: nat, q: nat, j: nat)
    requires Inv(s) && p < |s.phones| && q < |s.phones| && i < |s.phones[p].log| && j < |s.phones[q].log|
    requires s.phones[p].log[i].id == s.phones[q].log[j].id
    ensures p == q && i == j
  {
    assert PhoneOk(s.phones[p], p, s.issued) && PhoneOk(s.phones[q], q, s.issued);
  }

  /** After any interleaving each history is the last hundred of what was ever added to it, no two messages anywhere
      were added under one id, and a phone's arrivals are in id order. */
  lemma HistoryOfAnyRun(s: System, run: seq<Event>)
    requires Initial(s) && Runs(s, run)
    ensures
      var phones := End(s, run).phones;
      && (forall p :: 0 <= p < |phones| ==> HistoryOk(phones[p]) && ArrivalsAscend(phones[p].log))
      && (forall p, i, q, j ::
            0 <= p < |phones| && 0 <= i < |phones[p].log| && 0 <= q < |phones| && 0 <= j < |phones[q].log| ==>
            (phones[p].log[i].id == phones[q].log[j].id ==> p == q && i == j))
  {
    assert Inv(s);
    RunInv(s, run);
    var t := End(s, run);
    forall p | 0 <= p < |t.phones| ensures HistoryOk(t.phones[p]) && ArrivalsAscend(t.phones[p].log) {
      assert PhoneOk(t.phones[p], p, t.issued);
    }
    forall p, i, q, j |
      0 <= p < |t.phones| && 0 <= i < |t.phones[p].log| && 0 <= q < |t.phones| && 0 <= j < |t.phones[q].log|
      ensures t.phones[p].log[i].id == t.phones[q].log[j].id ==> p == q && i == j
    {
      if t.phones[p].log[i].id == t.phones[q].log[j].id { UniqueIds(t, p, i, q, j); }
    }
  }

  // ---------------------------------------------------------------- order of ids

  predicate Ascending(log: seq<Entry>) {
    forall i, j :: 0 <= i < j < |log| ==> log[i].id < log[j].id
  }

  predicate InIdOrder(ms: seq<Message>) {
    forall i, j :: 0 <= i < j < |ms| ==> ms[i].id < ms[j].id
  }

  lemma AppendAscends(log: seq<Entry>, e: Entry)
    requires Ascending(log)
    ensures Ascending(log + [e]) <==> log == [] || log[|log| - 1].id < e.id
  {
    if log != [] {
      var all := log + [e];
      assert all[|log| - 1] == log[|log| - 1] && all[|log|] == e;
    }
  }

  /** Storing a numbered message keeps the list in id order exactly when the list is empty or the last message kept has
      a smaller id; the same holds for everything ever added. */
  lemma StoreKeepsOrderExactly(ph: Phone, m: Message)
    ensures Ascending(ph.log) ==>
              (Ascending(ph.With(m).log) <==> ph.log == [] || ph.log[|ph.log| - 1].id < m.id)
    ensures InIdOrder(ph.messages) ==>
              (InIdOrder(ph.With(m).messages) <==> ph.messages == [] || ph.messages[|ph.messages| - 1].id < m.id)
  {
    if Ascending(ph.log) { AppendAscends(ph.log, Erased(m)); }
    if InIdOrder(ph.messages) { AddKeepsOrder(ph.messages, m); }
  }

  lemma AddKeepsOrder(ms: seq<Message>, m: Message)
    requires InIdOrder(ms)
    ensures InIdOrder(Add(ms, m)) <==> ms == [] || ms[|ms| - 1].id < m.id
  {
    var kept := Add(ms, m);
    forall i | 0 <= i < |kept| ensures var k := |ms| + 1 - |kept| + i; kept[i] == if k < |ms| then ms[k] else m {
      AddAt(ms, m, i);
    }
    LastDecides(ms, m, kept);
  }

  lemma LastDecides(ms: seq<Message>, m: Message, kept: seq<Message>)
    requires InIdOrder(ms) && 1 <= |kept| <= |ms| + 1 && (ms != [] ==> |kept| >= 2)
    requires forall i :: 0 <= i < |kept| ==>
      var k := |ms| + 1 - |kept| + i; kept[i] == if k < |ms| then ms[k] else m
    ensures InIdOrder(kept) <==> ms == [] || ms[|ms| - 1].id < m.id
  {
    if ms != [] {
      assert kept[|kept| - 2] == ms[|ms| - 1] && kept[|kept| - 1] == m;
    }
  }

  /** Whether a message has arrived since the pending number was taken. */
  function Passed(e: Event, p: nat, passed: bool): bool {
    if e.p != p then passed else if e.Receive? then true else if e.Number? then false else passed
  }

  /** In the rest of a run, phone `p` stores a message although another arrived after its number was taken. */
  predicate Overtaken(run: seq<Event>, p: nat, passed: bool) {
    run != [] && ((run[0] == Store(p) && passed) || Overtaken(run[1..], p, Passed(run[0], p, passed)))
  }

  /** `passed` is what the log and the request of the phone say. */
  predicate Tells(ph: Phone, passed: bool) {
    ph.request.Numbered? ==> (passed <==> ph.log != [] && ph.log[|ph.log| - 1].id > ph.request.id)
  }

  lemma StepLog(s: System, e: Event, p: nat)
    requires s.Enabled(e) && p < |s.phones|
    ensures |s.Step(e).phones| == |s.phones| && s.phones[p].log <= s.Step(e).phones[p].log
    ensures !(e.p == p && (e.Store? || e.Receive?)) ==> s.Step(e).phones[p].log == s.phones[p].log
    ensures !(e.p == p && (e.Store? || e.Number? || e.Result?)) ==> s.Step(e).phones[p].request == s.phones[p].request
  {
  }

  lemma {:induction false} RunLog(s: System, run: seq<Event>, p: nat)
    requires Runs(s, run) && p < |s.phones|
    ensures |End(s, run).phones| == |s.phones| && s.phones[p].log <= End(s, run).phones[p].log
    decreases |run|
  {
    if run != [] {
      StepLog(s, run[0], p);
      RunLog(s.Step(run[0]), run[1..], p);
    }
  }

  lemma StoreOrder(ph: Phone, p: nat, issued: seq<nat>, m: Message, passed: bool)
    requires PhoneOk(ph, p, issued) && ph.request.Numbered? && m.id == ph.request.id
    requires Ascending(ph.log) && Tells(ph, passed)
    ensures Ascending(ph.With(m).log) <==> !passed
  {
    AppendAscends(ph.log, Erased(m));
    if ph.log != [] { assert ph.log[|ph.log| - 1].id in ph.logged; }
  }

  lemma ReceiveOrder(ph: Phone, p: nat, issued: seq<nat>, m: Message)
    requires PhoneOk(ph, p, issued) && m.id == |issued| + 1 && Ascending(ph.log)
    ensures Ascending(ph.With(m).log) && Tells(ph.With(m), true)
  {
    FreshId(ph, p, issued);
    AppendAscends(ph.log, Erased(m));
  }

  lemma NumberOrder(ph: Phone, p: nat, issued: seq<nat>, to: string, text: string)
    requires PhoneOk(ph, p, issued)
    ensures Tells(ph.(request := Numbered(|issued| + 1, to, text)), false)
  {
    FreshId(ph, p, issued);
  }

  lemma OwnStepOrder(s: System, e: Event, passed: bool)
    requires s.Enabled(e) && (e.Store? || e.Receive? || e.Number?) && PhoneOk(s.phones[e.p], e.p, s.issued)
    requires Ascending(s.phones[e.p].log) && Tells(s.phones[e.p], passed)
    ensures e.p < |s.Step(e).phones|
    ensures Ascending(s.Step(e).phones[e.p].log) <==> !(e.Store? && passed)
    ensures !e.Store? ==> Tells(s.Step(e).phones[e.p], e.Receive?)
    ensures e.Store? ==> s.Step(e).phones[e.p].request.Submitted?
  {
    var ph := s.phones[e.p];
    match e
    case Store(p) =>
      StoreOrder(ph, p, s.issued, Message(ph.request.id, Sent, ph.request.to, ph.request.text, Submitting), passed);
    case Receive(p, from, text) =>
      ReceiveOrder(ph, p, s.issued, Message(|s.issued| + 1, Received, from, text, Arrived));
    case Number(p, to, text) => NumberOrder(ph, p, s.issued, to, text);
  }

  lemma OtherStepOrder(s: System, e: Event, p: nat, passed: bool)
    requires s.Enabled(e) && p < |s.phones| && !(e.p == p && (e.Store? || e.Receive? || e.Number?))
    requires Ascending(s.phones[p].log) && Tells(s.phones[p], passed)
    ensures p < |s.Step(e).phones| && Ascending(s.Step(e).phones[p].log) && Tells(s.Step(e).phones[p], passed)
  {
    StepLog(s, e, p);
  }

  lemma StepOrder(s: System, e: Event, p: nat, passed: bool)
    requires Inv(s) && s.Enabled(e) && p < |s.phones| && Ascending(s.phones[p].log) && Tells(s.phones[p], passed)
    ensures p < |s.Step(e).phones|
    ensures Ascending(s.Step(e).phones[p].log) <==> !(e == Store(p) && passed)
    ensures !(e == Store(p) && passed) ==> Tells(s.Step(e).phones[p], Passed(e, p, passed))
  {
    assert PhoneOk(s.phones[p], p, s.issued);
    if e.p == p && (e.Store? || e.Receive? || e.Number?) {
      OwnStepOrder(s, e, passed);
    } else {
      OtherStepOrder(s, e, p, passed);
    }
  }

  /** From a log in id order, the log stays so exactly when no stored message has been overtaken. */
  lemma {:induction false} OrderOfRun(s: System, run: seq<Event>, p: nat, passed: bool)
    requires Inv(s) && Runs(s, run) && p < |s.phones| && Ascending(s.phones[p].log) && Tells(s.phones[p], passed)
    ensures p < |End(s, run).phones|
    ensures Ascending(End(s, run).phones[p].log) <==> !Overtaken(run, p, passed)
    decreases |run|
  {
    if run != [] {
      var e, t := run[0], s.Step(run[0]);
      StepOrder(s, e, p, passed);
      StepInv(s, e);
      if e == Store(p) && passed {
        RunLog(t, run[1..], p);
        StaysUnordered(t.phones[p].log, End(t, run[1..]).phones[p].log);
      } else {
        OrderOfRun(t, run[1..], p, Passed(e, p, passed));
      }
    }
  }

  lemma StaysUnordered(log: seq<Entry>, longer: seq<Entry>)
    requires log <= longer && !Ascending(log)
    ensures !Ascending(longer)
  {
    var i, j :| 0 <= i < j < |log| && log[i].id >= log[j].id;
    assert longer[i] == log[i] && longer[j] == log[j];
  }

  /** In any interleaving the messages of a phone were added in id order exactly when no message arrived at it between
      taking the number of a submission and storing it; then the list kept is in id order as well. */
  lemma HistorySortedExactly(s: System, run: seq<Event>, p: nat)
    requires Initial(s) && Runs(s, run) && p < |s.phones|
    ensures p < |End(s, run).phones|
    ensures Ascending(End(s, run).phones[p].log) <==> !Overtaken(run, p, false)
    ensures !Overtaken(run, p, false) ==> InIdOrder(End(s, run).phones[p].messages)
  {
    assert Inv(s);
    OrderOfRun(s, run, p, false);
    RunInv(s, run);
    var ph := End(s, run).phones[p];
    assert PhoneOk(ph, p, End(s, run).issued);
    if !Overtaken(run, p, false) { KeptInOrder(ph); }
  }

  lemma KeptInOrder(ph: Phone)
    requires HistoryOk(ph) && Ascending(ph.log)
    ensures InIdOrder(ph.messages)
  {
    var d := |ph.log| - |ph.messages|;
    forall i, j | 0 <= i < j < |ph.messages| ensures ph.messages[i].id < ph.messages[j].id {
      assert ph.log[d + i].id < ph.log[d + j].id;
    }
  }

  // ---------------------------------------------------------------- status over time

  /** A message's status only ever moves forward; a delivered, failed or arrived message never changes. */
  predicate Later(before: Status, after: Status) {
    || before == after
    || (before == Submitting && (after == Accepted || after == Failed || after == Delivered))
    || (before == Accepted && after == Delivered)
  }

  predicate Kept(ph: Phone, id: nat) {
    Find(ph.messages, id) < |ph.messages|
  }

  function Get(ph: Phone, id: nat): Message
    requires Kept(ph, id)
  {
    ph.messages[Find(ph.messages, id)]
  }

  /** `after` is the same message as `before`, perhaps further on. */
  predicate SameMessage(before: Message, after: Message) {
    after == before.(status := after.status) && Later(before.status, after.status)
  }

  /** The phone's messages under the same ids only move forward, and none that was dropped comes back. */
  predicate Forward(before: Phone, after: Phone) {
    && (forall id :: id in before.logged && Kept(after, id) ==>
          Kept(before, id) && SameMessage(Get(before, id), Get(after, id)))
    && before.logged <= after.logged
  }

  lemma SameFind(a: seq<Message>, b: seq<Message>, id: nat)
    requires |a| == |b| && forall i :: 0 <= i < |a| ==> a[i].id == b[i].id
    ensures Find(a, id) == Find(b, id)
  {
    var i, j := Find(a, id), Find(b, id);
    assert i < |a| ==> b[i].id == id;
    assert j < |b| ==> a[j].id == id;
  }

  lemma Pointwise(before: Phone, after: Phone)
    requires |before.messages| == |after.messages| && before.logged == after.logged
    requires forall i :: 0 <= i < |before.messages| ==> SameMessage(before.messages[i], after.messages[i])
    ensures Forward(before, after)
  {
    forall id ensures Find(before.messages, id) == Find(after.messages, id) {
      SameFind(before.messages, after.messages, id);
    }
  }

  lemma WithForward(ph: Phone, m: Message)
    requires LogOk(ph) && HistoryOk(ph) && m.id !in ph.logged
    ensures Forward(ph, ph.With(m))
  {
    var ph' := ph.With(m);
    KeptDistinct(ph);
    forall id | id in ph.logged && Kept(ph', id) ensures Kept(ph, id) && Get(ph, id) == Get(ph', id) {
      var k := Find(ph'.messages, id);
      var j := AddedAt(ph.messages, m, k);
      assert Find(ph.messages, id) <= j;
    }
  }

  /** What is kept after an addition is the new message or was kept before. */
  lemma AddedAt(ms: seq<Message>, m: Message, k: nat) returns (j: nat)
    requires k < |Add(ms, m)| && Add(ms, m)[k] != m
    ensures j < |ms| && Add(ms, m)[k] == ms[j]
  {
    AddAt(ms, m, k);
    j := |ms| + 1 - |Add(ms, m)| + k;
  }

  lemma StepForward(s: System, e: Event, q: nat)
    requires Inv(s) && s.Enabled(e) && q < |s.phones|
    ensures Forward(s.phones[q], s.Step(e).phones[q])
  {
    assert PhoneOk(s.phones[q], q, s.issued);
    if e.Match? && s.phones[e.p].receiver.todo != [] {
      MatchForward(s, e.p, q);
    } else if q != e.p {
      OthersSame(s, e, q);
      Unchanged(s.phones[q]);
    } else {
      OwnStepForward(s, e);
    }
  }

  lemma Unchanged(ph: Phone)
    ensures Forward(ph, ph)
  {
  }

  lemma OthersSame(s: System, e: Event, q: nat)
    requires s.Enabled(e) && q < |s.phones| && q != e.p && (e.Match? ==> s.phones[e.p].receiver.todo == [])
    ensures s.Step(e).phones[q] == s.phones[q]
  {
  }

  lemma MatchForward(s: System, p: nat, q: nat)
    requires p < |s.phones| && q < |s.phones| && s.phones[p].receiver.Matching? && s.phones[p].receiver.todo != []
    ensures Forward(s.phones[q], s.MatchOne(p).phones[q])
  {
    Pointwise(s.phones[q], s.MatchOne(p).phones[q]);
  }

  lemma PollForward(ph: Phone, id: nat, tracked: set<nat>)
    requires StatusOk(ph) && id in ph.tracked && Kept(ph, id)
    ensures Forward(ph, ph.(messages := MarkTracked(ph.messages, id), tracked := tracked))
  {
    assert ph.messages[Find(ph.messages, id)] in ph.messages;
    Pointwise(ph, ph.(messages := MarkTracked(ph.messages, id), tracked := tracked));
  }

  lemma ResultForward(ph: Phone, status: Status, tracked: set<nat>)
    requires StatusOk(ph) && ph.request.Submitted? && (status == Accepted || status == Failed)
    ensures
      var ms := Report(ph.messages, ph.request.id, status);
      Forward(ph, ph.(messages := ms, request := NoRequest, tracked := tracked))
  {
    ReportForward(ph, status);
    var ms := Report(ph.messages, ph.request.id, status);
    Pointwise(ph, ph.(messages := ms, request := NoRequest, tracked := tracked));
  }

  lemma OwnStepForward(s: System, e: Event)
    requires s.Enabled(e) && (e.Match? ==> s.phones[e.p].receiver.todo == []) && PhoneOk(s.phones[e.p], e.p, s.issued)
    ensures Forward(s.phones[e.p], s.Step(e).phones[e.p])
  {
    var ph, ph' := s.phones[e.p], s.Step(e).phones[e.p];
    match e
    case Store(_) =>
      var m := Message(ph.request.id, Sent, ph.request.to, ph.request.text, Submitting);
      WithForward(ph, m);
      SameMessages(ph, ph.With(m), ph');
    case Receive(_, from, text) =>
      var m := Message(|s.issued| + 1, Received, from, text, Arrived);
      FreshId(ph, e.p, s.issued);
      WithForward(ph, m);
      SameMessages(ph, ph.With(m), ph');
    case Result(_, ok) =>
      ResultForward(ph, if ok then Accepted else Failed,
                    if ok && s.trackers then ph.tracked + {ph.request.id} else ph.tracked);
    case Poll(_, id, delivered) =>
      if Kept(ph, id) && delivered {
        PollForward(ph, id, ph.tracked - {id});
      } else {
        Unchanged(ph);
        SameMessages(ph, ph, ph');
      }
    case _ =>
      Unchanged(ph);
      SameMessages(ph, ph, ph');
  }

  lemma SameMessages(ph: Phone, a: Phone, b: Phone)
    requires Forward(ph, a) && b.messages == a.messages && b.logged == a.logged
    ensures Forward(ph, b)
  {
  }

  lemma ReportForward(ph: Phone, status: Status)
    requires StatusOk(ph) && ph.request.Submitted? && (status == Accepted || status == Failed)
    ensures forall i :: 0 <= i < |ph.messages| ==>
      SameMessage(ph.messages[i], Report(ph.messages, ph.request.id, status)[i])
  {
    forall i | 0 <= i < |ph.messages|
      ensures SameMessage(ph.messages[i], Report(ph.messages, ph.request.id, status)[i])
    {
      assert ph.messages[i] in ph.messages;
    }
  }

  lemma ForwardTrans(a: Phone, b: Phone, c: Phone)
    requires Forward(a, b) && Forward(b, c)
    ensures Forward(a, c)
  {
  }

  /** Between any two moments of any interleaving the status of a message kept at the later one has only moved forward:
      from submitting to accepted, failed or delivered, or from accepted to delivered. Delivered and failed are final,
      and a message that was dropped does not come back. */
  lemma {:induction false} StatusMovesForward(s: System, run: seq<Event>, q: nat)
    requires Inv(s) && Runs(s, run) && q < |s.phones|
    ensures q < |End(s, run).phones| && Forward(s.phones[q], End(s, run).phones[q])
    decreases |run|
  {
    if run == [] {
      Pointwise(s.phones[q], s.phones[q]);
    } else {
      var t := s.Step(run[0]);
      StepInv(s, run[0]);
      StepForward(s, run[0], q);
      StatusMovesForward(t, run[1..], q);
      ForwardTrans(s.phones[q], t.phones[q], End(s, run).phones[q]);
    }
  }

  // ---------------------------------------------------------------- deliveries and receipts

  /** Whether the receiver of `ph` may still mark a message of phone `s` for a receipt of `text` from `from` at `to`. */
  function Owes(ph: Phone, s: nat, receipt: Receipt): nat {
    var r := ph.receiver;
    if ph.number == receipt.receiver && !r.Listening? && r.from == receipt.sender && r.text == receipt.text
       && (r.Stored? || s in r.todo) then 1 else 0
  }

  function Owed(phones: seq<Phone>, s: nat, receipt: Receipt): nat {
    if phones == [] then 0 else Owed(phones[..|phones| - 1], s, receipt) + Owes(phones[|phones| - 1], s, receipt)
  }

  lemma {:induction false} OwedUpdate(phones: seq<Phone>, p: nat, ph: Phone, s: nat, receipt: Receipt)
    requires p < |phones|
    ensures Owed(phones[p := ph], s, receipt) + Owes(phones[p], s, receipt) ==
            Owed(phones, s, receipt) + Owes(ph, s, receipt)
  {
    var n := |phones| - 1;
    if p == n {
      assert phones[p := ph][..n] == phones[..n];
    } else {
      OwedUpdate(phones[..n], p, ph, s, receipt);
      assert phones[p := ph][..n] == phones[..n][p := ph];
    }
  }

  function DeliveredTo(ms: seq<Message>, to: string, text: string): nat {
    if ms == [] then 0
    else DeliveredTo(ms[..|ms| - 1], to, text) + Counts(ms[|ms| - 1], to, text)
  }

  function Counts(m: Message, to: string, text: string): nat {
    if m.direction == Sent && m.peer == to && m.text == text && m.status == Delivered then 1 else 0
  }

  lemma {:induction false} DeliveredUpdate(ms: seq<Message>, k: nat, m: Message, to: string, text: string)
    requires k < |ms|
    ensures DeliveredTo(ms[k := m], to, text) + Counts(ms[k], to, text) ==
            DeliveredTo(ms, to, text) + Counts(m, to, text)
  {
    var n := |ms| - 1;
    if k == n {
      assert ms[k := m][..n] == ms[..n];
    } else {
      DeliveredUpdate(ms[..n], k, m, to, text);
      assert ms[k := m][..n] == ms[..n][k := m];
    }
  }

  lemma {:induction false} DeliveredSuffix(ms: seq<Message>, d: nat, to: string, text: string)
    requires d <= |ms|
    ensures DeliveredTo(ms[d..], to, text) <= DeliveredTo(ms, to, text)
  {
    if d < |ms| {
      DeliveredSuffix(ms[..|ms| - 1], d, to, text);
      assert ms[d..][..|ms| - d - 1] == ms[..|ms| - 1][d..];
    }
  }

  lemma DeliveredAdd(ms: seq<Message>, m: Message, to: string, text: string)
    requires m.status != Delivered
    ensures DeliveredTo(Add(ms, m), to, text) <= DeliveredTo(ms, to, text)
  {
    var all := ms + [m];
    assert all[..|all| - 1] == ms;
    DeliveredSuffix(all, |all| - |Trim(all)|, to, text);
  }

  lemma {:induction false} DeliveredReport(
    ms: seq<Message>, ms': seq<Message>, id: nat, status: Status, to: string, text: string)
    requires |ms'| == |ms| && forall i :: 0 <= i < |ms| ==> ms'[i] == Reported(ms[i], id, status)
    requires status == Accepted || status == Failed
    ensures DeliveredTo(ms', to, text) == DeliveredTo(ms, to, text)
  {
    if ms != [] {
      DeliveredReport(ms[..|ms| - 1], ms'[..|ms| - 1], id, status, to, text);
    }
  }

  /** Marks for a receipt, and marks still to come, never outnumber the receipts. */
  ghost predicate MarksBacked(s: System) {
    && (forall p :: 0 <= p < |s.phones| ==> LooksOnce(s.phones[p].receiver))
    && (forall q, to, text :: 0 <= q < |s.phones| ==> Backed(s, q, to, text))
  }

  /** A receiver looks at each phone once. */
  predicate LooksOnce(r: Receiver) {
    r.Matching? ==> forall i, j :: 0 <= i < j < |r.todo| ==> r.todo[i] != r.todo[j]
  }

  predicate Backed(s: System, q: nat, to: string, text: string)
    requires q < |s.phones|
  {
    var receipt := Receipt(s.phones[q].number, to, text);
    s.marks[Mark(q, to, text)] + Owed(s.phones, q, receipt) <= s.receipts[receipt]
  }

  /** Without trackers every delivered message was marked for a receipt. */
  ghost predicate DeliveriesMarked(s: System) {
    && (forall q :: 0 <= q < |s.phones| ==> s.phones[q].tracked == {})
    && (forall q, to, text :: 0 <= q < |s.phones| ==> Marked(s, q, to, text))
  }

  predicate Marked(s: System, q: nat, to: string, text: string)
    requires q < |s.phones|
  {
    DeliveredTo(s.phones[q].messages, to, text) <= s.marks[Mark(q, to, text)]
  }

  lemma StepKeepsNumbers(s: System, e: Event)
    requires s.Enabled(e)
    ensures |s.Step(e).phones| == |s.phones| && s.Step(e).trackers == s.trackers
    ensures forall q :: 0 <= q < |s.phones| ==> s.Step(e).phones[q].number == s.phones[q].number
  {
    var t := s.Step(e);
    if e.Match? && s.phones[e.p].receiver.todo != [] {
    } else {
      assert t.phones == s.phones[e.p := t.phones[e.p]] && t.phones[e.p].number == s.phones[e.p].number;
    }
  }

  /** A receiver's progress at one phone, seen from one possible sender. */
  lemma StepBacked(s: System, e: Event, q: nat, to: string, text: string)
    requires MarksBacked(s) && s.Enabled(e) && q < |s.phones|
    requires !(e.Match? && s.phones[e.p].receiver.todo != [])
    ensures |s.Step(e).phones| == |s.phones| && Backed(s.Step(e), q, to, text)
  {
    var t := s.Step(e);
    var receipt := Receipt(s.phones[q].number, to, text);
    StepKeepsNumbers(s, e);
    assert Backed(s, q, to, text);
    assert t.phones == s.phones[e.p := t.phones[e.p]];
    OwedUpdate(s.phones, e.p, t.phones[e.p], q, receipt);
  }

  lemma MatchBacked(s: System, p: nat, q: nat, to: string, text: string)
    requires MarksBacked(s) && p < |s.phones| && q < |s.phones|
    requires s.phones[p].receiver.Matching? && s.phones[p].receiver.todo != []
    ensures |s.MatchOne(p).phones| == |s.phones| && Backed(s.MatchOne(p), q, to, text)
  {
    var t := s.MatchOne(p);
    var r := s.phones[p].receiver;
    var receipt := Receipt(s.phones[q].number, to, text);
    var next := s.phones[p].(receiver := r.(todo := r.todo[1..]));
    var mid := s.phones[p := next];
    var k := r.todo[0];
    assert Backed(s, q, to, text);
    OwedUpdate(s.phones, p, next, q, receipt);
    if k < |s.phones| && s.phones[k].number == r.from {
      OwedUpdate(mid, k, t.phones[k], q, receipt);
      assert t.phones == mid[k := t.phones[k]];
      assert Owes(t.phones[k], q, receipt) == Owes(mid[k], q, receipt);
    }
    assert q == k ==> q !in r.todo[1..];
    assert q != k ==> (q in r.todo <==> q in r.todo[1..]);
  }

  function NextReceiver(r: Receiver, e: Event): Receiver
    requires (e.Snapshot? ==> r.Stored?) && (e.Match? ==> r.Matching?)
  {
    match e
    case Receive(_, from, text) => Stored(from, text)
    case Snapshot(_, n) => Matching(r.from, r.text, seq(n, i => i))
    case Match(_) => if r.todo == [] then Listening else r.(todo := r.todo[1..])
    case _ => r
  }

  lemma StepReceivers(s: System, e: Event, p: nat)
    requires s.Enabled(e) && p < |s.phones|
    ensures |s.Step(e).phones| == |s.phones|
    ensures s.Step(e).phones[p].receiver ==
            if p == e.p then NextReceiver(s.phones[p].receiver, e) else s.phones[p].receiver
  {
  }

  lemma StepLooksOnce(s: System, e: Event)
    requires s.Enabled(e) && forall p :: 0 <= p < |s.phones| ==> LooksOnce(s.phones[p].receiver)
    ensures |s.Step(e).phones| == |s.phones|
    ensures forall p :: 0 <= p < |s.phones| ==> LooksOnce(s.Step(e).phones[p].receiver)
  {
    StepReceivers(s, e, e.p);
    forall p | 0 <= p < |s.phones| ensures LooksOnce(s.Step(e).phones[p].receiver) {
      StepReceivers(s, e, p);
      assert LooksOnce(s.phones[p].receiver);
    }
  }

  lemma StepMarksBacked(s: System, e: Event)
    requires MarksBacked(s) && s.Enabled(e)
    ensures MarksBacked(s.Step(e))
  {
    StepKeepsNumbers(s, e);
    StepLooksOnce(s, e);
    forall q, to, text | 0 <= q < |s.phones| ensures Backed(s.Step(e), q, to, text) {
      if e.Match? && s.phones[e.p].receiver.todo != [] {
        MatchBacked(s, e.p, q, to, text);
      } else {
        StepBacked(s, e, q, to, text);
      }
    }
  }

  lemma StepMarked(s: System, e: Event, q: nat, to: string, text: string)
    requires DeliveriesMarked(s) && s.Enabled(e) && q < |s.phones| && !s.trackers
    ensures |s.Step(e).phones| == |s.phones| && Marked(s.Step(e), q, to, text)
  {
    StepKeepsNumbers(s, e);
    assert Marked(s, q, to, text);
    var ph := s.phones[e.p];
    if q == e.p && e.Store? {
      DeliveredAdd(ph.messages, Message(ph.request.id, Sent, ph.request.to, ph.request.text, Submitting), to, text);
    } else if q == e.p && e.Receive? {
      DeliveredAdd(ph.messages, Message(|s.issued| + 1, Received, e.from, e.text, Arrived), to, text);
    } else if q == e.p && e.Result? {
      var status := if e.ok then Accepted else Failed;
      DeliveredReport(ph.messages, Report(ph.messages, ph.request.id, status), ph.request.id, status, to, text);
    } else if e.Match? && ph.receiver.todo != [] {
      MatchMarked(s, e.p, q, to, text);
    }
  }

  lemma MatchMarked(s: System, p: nat, q: nat, to: string, text: string)
    requires p < |s.phones| && q < |s.phones| && Marked(s, q, to, text)
    requires s.phones[p].receiver.Matching? && s.phones[p].receiver.todo != []
    ensures |s.MatchOne(p).phones| == |s.phones| && Marked(s.MatchOne(p), q, to, text)
  {
    var r := s.phones[p].receiver;
    var ms := s.phones[q].messages;
    var k := FirstUndelivered(ms, s.phones[p].number, r.text);
    if q == r.todo[0] && s.phones[q].number == r.from && k < |ms| {
      DeliveredUpdate(ms, k, ms[k].(status := Delivered), to, text);
    }
  }

  lemma StepDeliveriesMarked(s: System, e: Event)
    requires DeliveriesMarked(s) && s.Enabled(e) && !s.trackers
    ensures DeliveriesMarked(s.Step(e)) && !s.Step(e).trackers
  {
    StepKeepsNumbers(s, e);
    forall q, to, text | 0 <= q < |s.phones| ensures Marked(s.Step(e), q, to, text) {
      StepMarked(s, e, q, to, text);
    }
  }

  lemma {:induction false} RunBacked(s: System, run: seq<Event>)
    requires Runs(s, run) && MarksBacked(s)
    ensures MarksBacked(End(s, run)) && |End(s, run).phones| == |s.phones| && End(s, run).trackers == s.trackers
    ensures !s.trackers && DeliveriesMarked(s) ==> DeliveriesMarked(End(s, run))
    decreases |run|
  {
    if run != [] {
      StepMarksBacked(s, run[0]);
      StepKeepsNumbers(s, run[0]);
      if !s.trackers && DeliveriesMarked(s) { StepDeliveriesMarked(s, run[0]); }
      RunBacked(s.Step(run[0]), run[1..]);
    }
  }

  lemma {:induction false} NothingOwed(phones: seq<Phone>, s: nat, receipt: Receipt)
    requires forall p :: 0 <= p < |phones| ==> phones[p].receiver.Listening?
    ensures Owed(phones, s, receipt) == 0
  {
    if phones != [] {
      NothingOwed(phones[..|phones| - 1], s, receipt);
    }
  }

  lemma InitialBacked(s: System)
    requires Initial(s)
    ensures MarksBacked(s) && DeliveriesMarked(s)
  {
    forall q, to, text | 0 <= q < |s.phones| ensures Backed(s, q, to, text) && Marked(s, q, to, text) {
      NothingOwed(s.phones, q, Receipt(s.phones[q].number, to, text));
    }
  }

  /** In every interleaving, for each phone, receiver and text: the messages marked on a receipt never outnumber the
      receipts; and without trackers neither do the kept messages that show as delivered. */
  lemma DeliveriesAreBacked(s: System, run: seq<Event>, q: nat, to: string, text: string)
    requires Initial(s) && Runs(s, run) && q < |s.phones|
    ensures
      var t := End(s, run);
      && q < |t.phones|
      && t.marks[Mark(q, to, text)] <= t.receipts[Receipt(t.phones[q].number, to, text)]
      && (!s.trackers ==>
            DeliveredTo(t.phones[q].messages, to, text) <= t.receipts[Receipt(t.phones[q].number, to, text)])
  {
    InitialBacked(s);
    RunBacked(s, run);
    var t := End(s, run);
    assert Backed(t, q, to, text);
    if !s.trackers { assert Marked(t, q, to, text); }
  }

  // ---------------------------------------------------------------- two runs worth knowing

  lemma Extend(s: System, e: Event, run: seq<Event>) returns (longer: seq<Event>)
    requires s.Enabled(e) && Runs(s.Step(e), run)
    ensures Runs(s, longer) && End(s, longer) == End(s.Step(e), run)
  {
    longer := [e] + run;
    assert longer[1..] == run;
  }

  const NUMBER := "+10"

  predicate OutOfOrder(ms: seq<Message>) {
    |ms| == 2 && ms[0].id == 2 && ms[0].direction == Received && ms[1].id == 1 && ms[1].direction == Sent
  }

  lemma StoreLate(s: System) returns (run: seq<Event>)
    requires s.phones != [] && s.phones[0].request == Numbered(1, NUMBER, "x")
    requires |s.phones[0].messages| == 1
    requires s.phones[0].messages[0].id == 2 && s.phones[0].messages[0].direction == Received
    ensures Runs(s, run) && |End(s, run).phones| == |s.phones| && OutOfOrder(End(s, run).phones[0].messages)
  {
    run := Extend(s, Store(0), []);
  }

  lemma ReceiveFirst(s: System)
    requires s.phones != [] && s.phones[0].messages == [] && s.phones[0].receiver.Listening? && |s.issued| == 1
    ensures
      var t := s.Step(Receive(0, NUMBER, "y"));
      && |t.phones| == |s.phones| && t.phones[0].request == s.phones[0].request
      && t.phones[0].messages == [Message(2, Received, NUMBER, "y", Arrived)]
  {
    var m := Message(2, Received, NUMBER, "y", Arrived);
    assert Add([], m) == [m];
  }

  lemma ReceiveBetween(s: System) returns (run: seq<Event>)
    requires s.phones != [] && s.phones[0].request == Numbered(1, NUMBER, "x") && |s.issued| == 1
    requires s.phones[0].messages == [] && s.phones[0].receiver.Listening?
    ensures Runs(s, run) && |End(s, run).phones| == |s.phones| && OutOfOrder(End(s, run).phones[0].messages)
  {
    ReceiveFirst(s);
    var rest := StoreLate(s.Step(Receive(0, NUMBER, "y")));
    run := Extend(s, Receive(0, NUMBER, "y"), rest);
  }

  /** A request that took its id before a message arrived and stores it afterwards leaves the list out of id order. */
  lemma HistoryNeedNotBeSorted(s: System) returns (run: seq<Event>)
    requires Initial(s) && s.phones != []
    ensures Runs(s, run) && |End(s, run).phones| == |s.phones| && OutOfOrder(End(s, run).phones[0].messages)
  {
    var e := Number(0, NUMBER, "x");
    assert s.phones[0] == NewPhone(s.phones[0].number);
    run := ReceiveBetween(s.Step(e));
    run := Extend(s, e, run);
  }

  /** One message on its way, sent by the first phone, and nothing received. */
  predicate OneMessage(s: System, status: Status) {
    && s.phones != [] && s.receipts == multiset{} && s.trackers
    && s.phones[0].messages == [Message(1, Sent, NUMBER, "x", status)]
  }

  lemma PollLast(s: System) returns (run: seq<Event>)
    requires OneMessage(s, Accepted) && 1 in s.phones[0].tracked
    ensures Runs(s, run) && OneMessage(End(s, run), Delivered)
  {
    var e := Poll(0, 1, true);
    var ms := s.phones[0].messages;
    assert Find(ms, 1) == 0;
    assert OneMessage(s.Step(e), Delivered);
    run := Extend(s, e, []);
  }

  lemma ResultThenPoll(s: System) returns (run: seq<Event>)
    requires OneMessage(s, Submitting) && s.phones[0].request == Submitted(1)
    ensures Runs(s, run) && OneMessage(End(s, run), Delivered)
  {
    var e := Result(0, true);
    assert Report(s.phones[0].messages, 1, Accepted) == [Message(1, Sent, NUMBER, "x", Accepted)];
    run := PollLast(s.Step(e));
    run := Extend(s, e, run);
  }

  lemma StoreThenResult(s: System) returns (run: seq<Event>)
    requires s.phones != [] && s.receipts == multiset{} && s.trackers
    requires s.phones[0].messages == [] && s.phones[0].request == Numbered(1, NUMBER, "x")
    ensures Runs(s, run) && OneMessage(End(s, run), Delivered)
  {
    var e := Store(0);
    assert Add([], Message(1, Sent, NUMBER, "x", Submitting)) == [Message(1, Sent, NUMBER, "x", Submitting)];
    run := ResultThenPoll(s.Step(e));
    run := Extend(s, e, run);
  }

  lemma TrackedWithoutReceipt(s: System) returns (run: seq<Event>)
    requires Initial(s) && s.phones != [] && s.trackers
    ensures Runs(s, run) && OneMessage(End(s, run), Delivered)
  {
    var e := Number(0, NUMBER, "x");
    assert s.phones[0] == NewPhone(s.phones[0].number);
    run := StoreThenResult(s.Step(e));
    run := Extend(s, e, run);
  }

  ghost predicate DeliveriesHaveReceipts(s: System) {
    forall q, to, text :: 0 <= q < |s.phones| ==>
      DeliveredTo(s.phones[q].messages, to, text) <= s.receipts[Receipt(s.phones[q].number, to, text)]
  }

  /** What shows as delivered is covered by receipts of this process in every interleaving exactly when no trackers
      run: a tracker takes another process's word for it. */
  lemma ReceiptsCoverDeliveriesExactly(s: System)
    requires Initial(s) && s.phones != []
    ensures (forall run :: Runs(s, run) ==> DeliveriesHaveReceipts(End(s, run))) <==> !s.trackers
  {
    if s.trackers {
      var run := TrackedWithoutReceipt(s);
      var ms := End(s, run).phones[0].messages;
      assert DeliveredTo(ms, NUMBER, "x") == 1 by { assert ms[..0] == []; }
      assert !DeliveriesHaveReceipts(End(s, run));
    } else {
      forall run | Runs(s, run) ensures DeliveriesHaveReceipts(End(s, run)) {
        InitialBacked(s);
        RunBacked(s, run);
        var t := End(s, run);
        forall q, to, text | 0 <= q < |s.phones|
          ensures DeliveredTo(t.phones[q].messages, to, text) <= t.receipts[Receipt(t.phones[q].number, to, text)]
        {
          DeliveriesAreBacked(s, run, q, to, text);
        }
      }
    }
  }
}
