/** What each step of the message bookkeeping does, and that a receipt reaches the messages it belongs to. */
module SmsEffects {
  import opened Text
  import opened SmsLedger

  // ---------------------------------------------------------------- receipts

  predicate AnyAwaits(ms: seq<Message>, to: string, text: string) {
    exists i :: 0 <= i < |ms| && Awaits(ms[i], to, text)
  }

  /** A receiver that looks at a phone marks there what awaits its receipt, if the phone is the sender's, and counts one
      mark for it; no other phone's messages change. */
  lemma LookMarksFirst(s: System, p: nat)
    requires s.Enabled(Match(p)) && s.phones[p].receiver.todo != []
    ensures
      var t, r, q := s.Step(Match(p)), s.phones[p].receiver, s.phones[p].receiver.todo[0];
      var to := s.phones[p].number;
      && |t.phones| == |s.phones| && t.phones[p].receiver == Matching(r.from, r.text, r.todo[1..])
      && (forall x :: 0 <= x < |s.phones| && (x != q || s.phones[x].number != r.from) ==>
            t.phones[x].messages == s.phones[x].messages)
      && (if q < |s.phones| && s.phones[q].number == r.from then
            && ReceiptMarked(s.phones[q].messages, t.phones[q].messages, to, r.text)
            && t.marks == if AnyAwaits(s.phones[q].messages, to, r.text) then s.marks + multiset{Mark(q, to, r.text)}
                          else s.marks
          else t.marks == s.marks)
  {
    var r := s.phones[p].receiver;
    var q, to := r.todo[0], s.phones[p].number;
    if q < |s.phones| && s.phones[q].number == r.from {
      var ms := s.phones[q].messages;
      var k := FirstUndelivered(ms, to, r.text);
      forall i | 0 <= i < |ms| ensures Awaits(ms[i], to, r.text) == Undelivered(ms[i], to, r.text) { }
      assert k < |ms| ==> Awaits(ms[k], to, r.text);
    }
  }

  // ---------------------------------------------------------------- the other steps

  /** The message was added and at most the last hundred kept. */
  predicate Appended(before: seq<Message>, after: seq<Message>, m: Message) {
    && |after| == (if |before| < 100 then |before| + 1 else 100)
    && after == (before + [m])[|before| + 1 - |after|..]
  }

  /** Only phone `p` is different. */
  predicate OnlyPhone(s: System, t: System, p: nat) {
    |t.phones| == |s.phones| && forall x :: 0 <= x < |s.phones| && x != p ==> t.phones[x] == s.phones[x]
  }

  lemma AddAppends(ms: seq<Message>, m: Message)
    ensures Appended(ms, Add(ms, m), m)
  {
    assert |ms + [m]| == |ms| + 1;
  }

  /** A submission takes the next id. */
  lemma NumberTakes(s: System, p: nat, to: string, text: string)
    requires s.Enabled(Number(p, to, text))
    ensures
      var t := s.Step(Number(p, to, text));
      && OnlyPhone(s, t, p) && t.phones[p].messages == s.phones[p].messages && t.issued == s.issued + [p]
      && t.phones[p].request == Numbered(|s.issued| + 1, to, text)
  {
  }

  /** It is stored as sent and being submitted. */
  lemma StoreAppends(s: System, p: nat)
    requires s.Enabled(Store(p))
    ensures
      var t, r := s.Step(Store(p)), s.phones[p].request;
      && OnlyPhone(s, t, p) && t.phones[p].request == Submitted(r.id)
      && Appended(s.phones[p].messages, t.phones[p].messages, Message(r.id, Sent, r.to, r.text, Submitting))
  {
    var r := s.phones[p].request;
    AddAppends(s.phones[p].messages, Message(r.id, Sent, r.to, r.text, Submitting));
  }

  /** The outcome of a submission is recorded in its message, unless that has been delivered, and nowhere else. */
  lemma ResultReports(s: System, p: nat, ok: bool)
    requires s.Enabled(Result(p, ok))
    ensures
      var t, id := s.Step(Result(p, ok)), s.phones[p].request.id;
      var before, after := s.phones[p].messages, t.phones[p].messages;
      && OnlyPhone(s, t, p) && t.phones[p].request == NoRequest && |after| == |before|
      && (forall i :: 0 <= i < |before| ==>
            after[i] == if before[i].id == id && before[i].status != Delivered
                        then before[i].(status := if ok then Accepted else Failed) else before[i])
      && t.phones[p].tracked == s.phones[p].tracked + if ok && s.trackers then {id} else {}
  {
  }

  /** An arriving message takes the next id, is stored as received, and is a receipt for its sender. */
  lemma ReceiveAppends(s: System, p: nat, from: string, text: string)
    requires s.Enabled(Receive(p, from, text))
    ensures
      var t := s.Step(Receive(p, from, text));
      && OnlyPhone(s, t, p) && t.issued == s.issued + [p] && t.phones[p].receiver == Stored(from, text)
      && t.receipts == s.receipts + multiset{Receipt(from, s.phones[p].number, text)}
      && Appended(s.phones[p].messages, t.phones[p].messages, Message(|s.issued| + 1, Received, from, text, Arrived))
  {
    AddAppends(s.phones[p].messages, Message(|s.issued| + 1, Received, from, text, Arrived));
  }

  /** A tracker that hears of the delivery marks its message and ends; it also ends when the message is gone. */
  lemma PollConfirms(s: System, p: nat, id: nat, delivered: bool)
    requires s.Enabled(Poll(p, id, delivered))
    ensures
      var t := s.Step(Poll(p, id, delivered));
      var before, after := s.phones[p].messages, t.phones[p].messages;
      var kept := exists i :: 0 <= i < |before| && before[i].id == id;
      && OnlyPhone(s, t, p) && |after| == |before|
      && (forall i :: 0 <= i < |before| ==>
            after[i] == if delivered && before[i].id == id && (forall j :: 0 <= j < i ==> before[j].id != id)
                        then before[i].(status := Delivered) else before[i])
      && t.phones[p].tracked == if delivered || !kept then s.phones[p].tracked - {id} else s.phones[p].tracked
  {
    var ms := s.phones[p].messages;
    var k := Find(ms, id);
    assert (exists i :: 0 <= i < |ms| && ms[i].id == id) <==> k < |ms|;
  }

  // ---------------------------------------------------------------- a receipt over a run

  lemma {:induction false} RunPrefix(s: System, run: seq<Event>, k: nat)
    requires Runs(s, run) && k < |run|
    ensures Runs(s, run[..k]) && Runs(s, run[..k + 1]) && End(s, run[..k]).Enabled(run[k])
    ensures End(s, run[..k + 1]) == End(s, run[..k]).Step(run[k])
    decreases |run|
  {
    if k == 0 {
      assert run[..1][1..] == [] && run[..0] == [];
    } else {
      assert run[..k][1..] == run[1..][..k - 1] && run[..k + 1][1..] == run[1..][..k];
      RunPrefix(s.Step(run[0]), run[1..], k - 1);
    }
  }

  lemma {:induction false} NumbersStay(s: System, run: seq<Event>)
    requires Runs(s, run)
    ensures |End(s, run).phones| == |s.phones|
    ensures forall q :: 0 <= q < |s.phones| ==> End(s, run).phones[q].number == s.phones[q].number
    decreases |run|
  {
    if run != [] {
      StepKeepsNumbers(s, run[0]);
      NumbersStay(s.Step(run[0]), run[1..]);
    }
  }

  /** The receiver of `p` is about to look at phone `q` when it comes to event `k`. */
  predicate LooksNow(s: System, run: seq<Event>, p: nat, q: nat, k: nat, from: string, text: string) {
    && k < |run| && Runs(s, run[..k]) && run[k] == Match(p) && p < |End(s, run[..k]).phones|
    && var r := End(s, run[..k]).phones[p].receiver;
    r.Matching? && r.from == from && r.text == text && r.todo != [] && r.todo[0] == q
  }

  lemma LaterLook(s: System, run: seq<Event>, p: nat, q: nat, k: nat, from: string, text: string)
    requires Runs(s, run) && run != [] && LooksNow(s.Step(run[0]), run[1..], p, q, k, from, text)
    ensures LooksNow(s, run, p, q, k + 1, from, text)
  {
    assert run[..k + 1][0] == run[0] && run[..k + 1][1..] == run[1..][..k];
  }

  /** A receiver that gets done with its message has looked at each phone on its list. */
  lemma {:induction false} LooksAt(s: System, run: seq<Event>, p: nat, q: nat) returns (k: nat)
    requires Runs(s, run) && p < |s.phones| && s.phones[p].receiver.Matching? && q in s.phones[p].receiver.todo
    requires p < |End(s, run).phones| && End(s, run).phones[p].receiver.Listening?
    ensures LooksNow(s, run, p, q, k, s.phones[p].receiver.from, s.phones[p].receiver.text)
    decreases |run|
  {
    var e, r := run[0], s.phones[p].receiver;
    StepReceivers(s, e, p);
    if e == Match(p) && r.todo[0] == q {
      k := 0;
      assert run[..0] == [];
    } else {
      if e == Match(p) { LookMarksFirst(s, p); }
      var j := LooksAt(s.Step(e), run[1..], p, q);
      LaterLook(s, run, p, q, j, r.from, r.text);
      k := j + 1;
    }
  }

  /** At some event of the run, the receiver of `p` looked at phone `q` and marked there what awaited its receipt. */
  ghost predicate Reached(s: System, run: seq<Event>, p: nat, q: nat, text: string) {
    exists k :: 0 <= k < |run| && run[k] == Match(p) && Runs(s, run[..k]) && Runs(s, run[..k + 1]) &&
      p < |s.phones| && q < |End(s, run[..k]).phones| && q < |End(s, run[..k + 1]).phones| &&
      ReceiptMarked(End(s, run[..k]).phones[q].messages, End(s, run[..k + 1]).phones[q].messages,
                    s.phones[p].number, text)
  }

  /** Looking at a phone with the sender's number reaches it. */
  lemma LookReaches(s: System, run: seq<Event>, p: nat, q: nat, k: nat, from: string, text: string)
    requires Runs(s, run) && p < |s.phones| && q < |s.phones| && s.phones[q].number == from
    requires LooksNow(s, run, p, q, k, from, text)
    ensures Reached(s, run, p, q, text)
  {
    RunPrefix(s, run, k);
    NumbersStay(s, run[..k]);
    NumbersStay(s, run[..k + 1]);
    LookMarksFirst(End(s, run[..k]), p);
  }

  lemma PrefixOfRest(s: System, run: seq<Event>, j: nat)
    requires Runs(s, run) && run != [] && j <= |run[1..]| && Runs(s.Step(run[0]), run[1..][..j])
    ensures Runs(s, run[..j + 1]) && End(s, run[..j + 1]) == End(s.Step(run[0]), run[1..][..j])
  {
    assert run[..j + 1][0] == run[0] && run[..j + 1][1..] == run[1..][..j];
  }

  lemma {:induction false} FindsPhones(s: System, run: seq<Event>, p: nat) returns (j: nat)
    requires Runs(s, run) && p < |s.phones| && s.phones[p].receiver.Stored?
    requires p < |End(s, run).phones| && End(s, run).phones[p].receiver.Listening?
    ensures j < |run| && run[j].Snapshot? && run[j].p == p && Runs(s, run[..j])
    ensures p < |End(s, run[..j]).phones| && End(s, run[..j]).phones[p].receiver == s.phones[p].receiver
    decreases |run|
  {
    var e := run[0];
    StepReceivers(s, e, p);
    if e.Snapshot? && e.p == p {
      j := 0;
      assert run[..0] == [];
    } else {
      j := FindsPhones(s.Step(e), run[1..], p);
      PrefixOfRest(s, run, j);
      j := j + 1;
    }
  }

  lemma {:induction false} RunSplit(s: System, run: seq<Event>, k: nat)
    requires Runs(s, run) && k <= |run|
    ensures Runs(s, run[..k]) && Runs(End(s, run[..k]), run[k..]) && End(End(s, run[..k]), run[k..]) == End(s, run)
    decreases |run|
  {
    if k == 0 {
      assert run[..0] == [] && run[0..] == run;
    } else {
      assert run[..k][1..] == run[1..][..k - 1] && run[k..] == run[1..][k - 1..];
      RunSplit(s.Step(run[0]), run[1..], k - 1);
    }
  }

  lemma Slices<T>(s: seq<T>, m: nat, k: nat)
    requires m + k < |s|
    ensures s[..m + k][..m] == s[..m] && s[..m + k][m..] == s[m..][..k] && s[m..][k] == s[m + k]
  {
  }

  lemma ReachedLater(s: System, run: seq<Event>, m: nat, p: nat, q: nat, k: nat, from: string, text: string)
    requires Runs(s, run) && m <= |run| && Runs(s, run[..m])
    requires LooksNow(End(s, run[..m]), run[m..], p, q, k, from, text)
    ensures LooksNow(s, run, p, q, m + k, from, text)
  {
    RunPrefix(s, run, m + k);
    RunSplit(s, run[..m + k], m);
    Slices(run, m, k);
  }

  /** From the moment the receiver has its list, it looks at every phone on it. */
  lemma ListLooks(s: System, run: seq<Event>, m: nat, p: nat, q: nat, from: string, text: string) returns (k: nat)
    requires Runs(s, run) && m <= |run| && Runs(s, run[..m]) && p < |End(s, run[..m]).phones|
    requires var r := End(s, run[..m]).phones[p].receiver;
      r.Matching? && r.from == from && r.text == text && q in r.todo
    requires p < |End(s, run).phones| && End(s, run).phones[p].receiver.Listening?
    ensures LooksNow(s, run, p, q, k, from, text)
  {
    RunSplit(s, run, m);
    var i := LooksAt(End(s, run[..m]), run[m..], p, q);
    k := m + i;
    ReachedLater(s, run, m, p, q, i, from, text);
  }

  /** Taking the list of phones. */
  lemma TakesList(s: System, run: seq<Event>, p: nat, j: nat)
    requires Runs(s, run) && p < |s.phones| && j < |run| && run[j].Snapshot? && run[j].p == p && Runs(s, run[..j])
    requires p < |End(s, run[..j]).phones| && End(s, run[..j]).phones[p].receiver == s.phones[p].receiver
    requires s.phones[p].receiver.Stored?
    ensures Runs(s, run[..j + 1]) && p < |End(s, run[..j + 1]).phones|
    ensures End(s, run[..j + 1]).phones[p].receiver ==
            Matching(s.phones[p].receiver.from, s.phones[p].receiver.text, seq(run[j].phones, i => i))
  {
    RunPrefix(s, run, j);
    StepReceivers(End(s, run[..j]), run[j], p);
  }

  /** When a receiver that has stored a message is listening again, it has meanwhile taken the list of phones, and on
      every phone of the list with the sender's number the first message awaiting that receipt, if there was one when it
      looked, has been marked delivered. */
  lemma ReceiptReachesSenders(s: System, run: seq<Event>, p: nat) returns (j: nat)
    requires Runs(s, run) && p < |s.phones| && s.phones[p].receiver.Stored?
    requires p < |End(s, run).phones| && End(s, run).phones[p].receiver.Listening?
    ensures j < |run| && run[j].Snapshot? && run[j].p == p
    ensures forall q :: 0 <= q < run[j].phones && q < |s.phones| && s.phones[q].number == s.phones[p].receiver.from ==>
      Reached(s, run, p, q, s.phones[p].receiver.text)
  {
    var from, text := s.phones[p].receiver.from, s.phones[p].receiver.text;
    j := FindsPhones(s, run, p);
    TakesList(s, run, p, j);
    forall q | 0 <= q < run[j].phones && q < |s.phones| && s.phones[q].number == from
      ensures Reached(s, run, p, q, text)
    {
      assert seq(run[j].phones, i => i)[q] == q;
      var k := ListLooks(s, run, j + 1, p, q, from, text);
      LookReaches(s, run, p, q, k, from, text);
    }
  }
}
