// The queue database: how one projection of a request is applied to the messages a sender reads.
module QueueProjection {
  import opened Options

  datatype Role = RootRole | ReplyRole

  datatype Owner = Nobody | Owner(request: nat, role: Role)

  datatype Reading = Unread | Taken | ReadDone | ReadFailed | ReadCancelled

  predicate Handled(status: Reading) { status in {ReadDone, ReadFailed, ReadCancelled} }

  // A row of the message table. `address` stands for the type, both ends and the thread of the message.
  datatype Message = Message(owner: Owner, address: string, version: nat, status: Reading, body: string)

  datatype Queue = Queue(hot: map<nat, Message>, archive: map<nat, Message>)

  datatype Payload = Payload(status: Reading, body: string, reply: Option<string>)

  // The complete visible request at one version.
  datatype Projection = Projection(request: nat, version: nat, root: nat, rootAddress: string, reply: nat, replyAddress: string, payload: Payload)

  predicate Belongs(m: Message, request: nat, role: Role, address: string) { m.owner == Owner(request, role) && m.address == address }

  function RootOf(p: Projection): Message { Message(Owner(p.request, RootRole), p.rootAddress, p.version, p.payload.status, p.payload.body) }

  function ReplyOf(p: Projection): Message
    requires p.payload.reply.Some?
  {
    Message(Owner(p.request, ReplyRole), p.replyAddress, p.version, Unread, p.payload.reply.value)
  }

  // The projection finds both its ids free or its own.
  predicate Adoptable(hot: map<nat, Message>, p: Projection) {
    && (p.root in hot ==> Belongs(hot[p.root], p.request, RootRole, p.rootAddress))
    && (p.payload.reply.Some? ==> p.reply != p.root && (p.reply in hot ==> Belongs(hot[p.reply], p.request, ReplyRole, p.replyAddress)))
  }

  // One queue transaction: the root rises to a strictly higher version only, the reply is inserted once.
  function Apply(hot: map<nat, Message>, p: Projection): (after: Option<map<nat, Message>>)
    ensures after.Some? <==> Adoptable(hot, p)
    ensures after.Some? ==>
              && p.root in after.value && after.value[p.root] == (if p.root in hot && p.version <= hot[p.root].version then hot[p.root] else RootOf(p))
              && (p.payload.reply.Some? ==> p.reply in after.value && after.value[p.reply] == if p.reply in hot then hot[p.reply] else ReplyOf(p))
              && (forall id :: id in hot ==> id in after.value && (id != p.root ==> after.value[id] == hot[id]))
              && (forall id :: id in after.value && id !in hot ==> id == p.root || (p.payload.reply.Some? && id == p.reply))
  {
    if !Adoptable(hot, p) then None
    else
      var rooted := if p.root in hot && p.version <= hot[p.root].version then hot else hot[p.root := RootOf(p)];
      if p.payload.reply.Some? && p.reply !in rooted then Some(rooted[p.reply := ReplyOf(p)]) else Some(rooted)
  }

  // The ids whose message is no longer what it was.
  function Changed(before: map<nat, Message>, after: map<nat, Message>): set<nat> { set id | id in before && id in after && after[id] != before[id] }

  lemma NoneChanged(messages: map<nat, Message>)
    ensures Changed(messages, messages) == {}
  {}

  lemma OneMore(before: map<nat, Message>, after: map<nat, Message>, id: nat, m: Message)
    requires id in before && id in after && after[id] == before[id] != m
    ensures |Changed(before, after[id := m])| == |Changed(before, after)| + 1
  {
    assert Changed(before, after[id := m]) == Changed(before, after) + {id};
  }

  class QueueStore {
    var hot: map<nat, Message>

    // An id that belongs to anything else is never adopted: the transaction is rolled back as a whole.
    method ApplyProjection(p: Projection) returns (ok: bool)
      modifies this
      ensures ok == Apply(old(hot), p).Some?
      ensures hot == if ok then Apply(old(hot), p).value else old(hot)
    {
      var begun := hot;
      if p.root in hot && !Belongs(hot[p.root], p.request, RootRole, p.rootAddress) { return false; }
      if p.root !in hot || hot[p.root].version < p.version {
        hot := hot[p.root := RootOf(p)];
      }
      if p.payload.reply.Some? {
        if p.reply !in hot { hot := hot[p.reply := ReplyOf(p)]; }
        if !Belongs(hot[p.reply], p.request, ReplyRole, p.replyAddress) {
          hot := begun;
          return false;
        }
      }
      return true;
    }

    // Replies whose reader took them and never finished become readable again, at most `limit` in one pass.
    method RecoverForgottenReads(taken: seq<nat>, limit: nat) returns (recovered: nat)
      modifies this
      ensures recovered <= limit && hot.Keys == old(hot).Keys && recovered == |Changed(old(hot), hot)|
      ensures forall id :: id in hot ==>
                || hot[id] == old(hot)[id]
                || (id in taken && old(hot)[id].owner.Owner? && old(hot)[id].owner.role == ReplyRole && old(hot)[id].status == Taken
                    && hot[id] == old(hot)[id].(status := Unread))
      ensures recovered < limit ==>
                forall j :: 0 <= j < |taken| && taken[j] in hot && hot[taken[j]].owner.Owner? && hot[taken[j]].owner.role == ReplyRole ==> hot[taken[j]].status != Taken
    {
      hide Changed;
      recovered := 0;
      var k := 0;
      assert Changed(hot, hot) == {} by { NoneChanged(hot); }
      while k < |taken| && recovered < limit
        invariant k <= |taken| && recovered <= limit && hot.Keys == old(hot).Keys && recovered == |Changed(old(hot), hot)|
        invariant forall id :: id in hot ==>
                    || hot[id] == old(hot)[id]
                    || (id in taken && old(hot)[id].owner.Owner? && old(hot)[id].owner.role == ReplyRole && old(hot)[id].status == Taken
                        && hot[id] == old(hot)[id].(status := Unread))
        invariant forall j :: 0 <= j < k && taken[j] in hot && hot[taken[j]].owner.Owner? && hot[taken[j]].owner.role == ReplyRole ==> hot[taken[j]].status != Taken
      {
        var id := taken[k];
        if id in hot && hot[id].owner.Owner? && hot[id].owner.role == ReplyRole && hot[id].status == Taken {
          OneMore(old(hot), hot, id, hot[id].(status := Unread));
          hot := hot[id := hot[id].(status := Unread)];
          recovered := recovered + 1;
        }
        k := k + 1;
      }
    }
  }
}
