/** The routing table in front of the mailboxes: publish to a topic, subscribe, unsubscribe. */
module EventBus {
  import opened Mailbox

  /** A whole enqueue call when nothing runs between its lock and its signal. */
  function Accept<E>(s: State<E>, pub: Pub<E>): State<E> {
    var t := ApplyEnqueue(s, pub);
    if t.pendingWakes > s.pendingWakes then Apply(t, SendWake) else t
  }

  method Deliver<E>(x: Subscription<E>, pub: Pub<E>)
    requires Inv(x.View())
    modifies x
    ensures x.View() == Accept(old(x.View()), pub) && Inv(x.View())
    ensures !pub.droppable && !old(x.stopped) ==> x.accepted == old(x.accepted) + [pub]
  {
    var taken, backlog, signal := x.EnqueueLocked(pub);
    if signal {
      x.Signal();
    }
  }

  class Bus<E> {
    var subs: map<string, set<Subscription<E>>>

    function Subscribers(topic: string): set<Subscription<E>>
      reads this
    {
      if topic in subs then subs[topic] else {}
    }

    ghost function Everyone(): set<Subscription<E>>
      reads this
    {
      set topic, x | topic in subs && x in subs[topic] :: x
    }

    ghost predicate Valid()
      reads this, Everyone()
    {
      && (forall topic <- subs :: subs[topic] != {})
      && (forall x <- Everyone() :: Inv(x.View()))
    }

    constructor ()
      ensures Valid() && subs == map[]
    {
      subs := map[];
    }

    /** Every subscriber of the topic, and nobody else, is offered the event exactly once. */
    method Publish(topic: string, pub: Pub<E>)
      requires Valid()
      modifies Subscribers(topic)
      ensures Valid() && subs == old(subs)
      ensures forall x <- Subscribers(topic) :: x.View() == Accept(old(x.View()), pub)
      ensures !pub.droppable ==> forall x <- Subscribers(topic) ::
                !old(x.stopped) ==> x.accepted == old(x.accepted) + [pub]
    {
      hide Inv, Accept;
      var todo := Subscribers(topic);
      assert Subscribers(topic) <= Everyone();
      while todo != {}
        invariant todo <= Subscribers(topic)
        invariant forall x <- Everyone() :: Inv(x.View())
        invariant forall x <- todo :: x.View() == old(x.View())
        invariant forall x <- Subscribers(topic) - todo :: x.View() == Accept(old(x.View()), pub)
        invariant !pub.droppable ==> forall x <- Subscribers(topic) - todo ::
                    !old(x.stopped) ==> x.accepted == old(x.accepted) + [pub]
        decreases todo
      {
        var x :| x in todo;
        todo := todo - {x};
        Deliver(x, pub);
      }
    }

    method Subscribe(topic: string) returns (subscription: Subscription<E>)
      requires Valid()
      modifies this
      ensures Valid() && fresh(subscription) && subscription.View() == Init()
      ensures subs == old(subs)[topic := old(Subscribers(topic)) + {subscription}]
    {
      subscription := new Subscription();
      subs := subs[topic := Subscribers(topic) + {subscription}];
    }

    /** Takes the subscription out of every topic; a topic left without subscribers disappears. */
    method DropRoutes(subscription: Subscription<E>) returns (found: bool)
      requires forall topic <- subs :: subs[topic] != {}
      modifies this
      ensures found <==> subscription in old(Everyone())
      ensures forall topic :: Subscribers(topic) == old(Subscribers(topic)) - {subscription}
      ensures forall topic <- subs :: subs[topic] != {}
    {
      found := false;
      var todo := subs.Keys;
      while todo != {}
        invariant todo <= old(subs).Keys && subs.Keys <= old(subs).Keys
        invariant forall topic <- todo :: topic in subs && subs[topic] == old(subs)[topic]
        invariant forall topic <- old(subs).Keys - todo ::
                    Subscribers(topic) == old(subs)[topic] - {subscription}
        invariant forall topic <- subs :: subs[topic] != {}
        invariant found <==> exists topic :: topic in old(subs).Keys - todo && subscription in old(subs)[topic]
        decreases todo
      {
        var topic :| topic in todo;
        todo := todo - {topic};
        if subscription in subs[topic] {
          found := true;
          var rest := subs[topic] - {subscription};
          if rest == {} {
            subs := subs - {topic};
          } else {
            subs := subs[topic := rest];
          }
        }
      }
    }

    /** Afterwards no topic routes to the subscription and it is stopped; the other mailboxes keep
        their state and their topics. */
    method Unsubscribe(subscription: Subscription<E>)
      requires Valid() && Inv(subscription.View())
      modifies this, subscription
      ensures Valid()
      ensures forall topic :: Subscribers(topic) == old(Subscribers(topic)) - {subscription}
      ensures subscription in old(Everyone()) ==> subscription.View() == Apply(old(subscription.View()), Stop)
      ensures subscription !in old(Everyone()) ==> subscription.View() == old(subscription.View())
    {
      var found := DropRoutes(subscription);
      assert Everyone() <= old(Everyone()) by {
        assert forall topic <- subs :: subs[topic] == Subscribers(topic);
      }
      if found {
        subscription.StopMailbox();
      }
    }
  }
}
