/** The app's realtime client (RealtimeWebSocketClient.kt): the wanted set it keeps across sockets and
    replays after each auth_ok. */
module RealtimeClient {
  import opened Common
  import opened Realtime

  ghost predicate Lists(ids: seq<PublicId>, wanted: set<PublicId>) {
    forall id :: id in ids <==> id in wanted
  }

  method ToList(ids: set<PublicId>) returns (list: seq<PublicId>)
    ensures Lists(list, ids) && |list| == |ids|
  {
    list := [];
    var todo := ids;
    while todo != {}
      invariant todo <= ids && Lists(list, ids - todo) && |list| == |ids| - |todo|
      decreases todo
    {
      var id :| id in todo;
      list, todo := list + [id], todo - {id};
    }
  }

  class WebSocket {
    var open: bool
    var sent: seq<Message>

    constructor ()
      ensures open && sent == []
    {
      open, sent := true, [];
    }
  }

  class RealtimeWebSocketClient {
    var pendingSubscriptions: set<PublicId>
    var webSocket: WebSocket?

    constructor ()
      ensures pendingSubscriptions == {} && webSocket == null
    {
      pendingSubscriptions, webSocket := {}, null;
    }

    // Dropped without an open socket.
    method Send(message: Message)
      modifies webSocket
      ensures webSocket != null ==>
        webSocket.open == old(webSocket.open) && webSocket.sent == old(webSocket.sent) + if webSocket.open then [message] else []
    {
      if webSocket != null {
        if webSocket.open {
          webSocket.sent := webSocket.sent + [message];
        }
      }
    }

    method Subscribe(ids: set<PublicId>) returns (ghost list: seq<PublicId>)
      modifies this`pendingSubscriptions, webSocket
      ensures Lists(list, ids) && pendingSubscriptions == old(pendingSubscriptions) + ids
      ensures webSocket != null ==> webSocket.open == old(webSocket.open)
      ensures webSocket != null ==>
        webSocket.sent == old(webSocket.sent) + if ids != {} && webSocket.open then [Message.Subscribe(list)] else []
    {
      list := [];
      if ids == {} {
        return;
      }
      pendingSubscriptions := pendingSubscriptions + ids;
      var objectIds := ToList(ids);
      list := objectIds;
      Send(Message.Subscribe(objectIds));
    }

    method Unsubscribe(ids: set<PublicId>) returns (ghost list: seq<PublicId>)
      modifies this`pendingSubscriptions, webSocket
      ensures Lists(list, ids) && pendingSubscriptions == old(pendingSubscriptions) - ids
      ensures webSocket != null ==> webSocket.open == old(webSocket.open)
      ensures webSocket != null ==>
        webSocket.sent == old(webSocket.sent) + if ids != {} && webSocket.open then [Message.Unsubscribe(list)] else []
    {
      list := [];
      if ids == {} {
        return;
      }
      pendingSubscriptions := pendingSubscriptions - ids;
      var objectIds := ToList(ids);
      list := objectIds;
      Send(Message.Unsubscribe(objectIds));
    }

    /** Replays the wanted set, whichever socket the auth_ok came from. */
    method OnAuthenticated() returns (ghost list: seq<PublicId>)
      modifies this`pendingSubscriptions, webSocket
      ensures Lists(list, pendingSubscriptions) && pendingSubscriptions == old(pendingSubscriptions)
      ensures webSocket != null ==> webSocket.open == old(webSocket.open)
      ensures webSocket != null ==>
        webSocket.sent == old(webSocket.sent) + if pendingSubscriptions != {} && webSocket.open then [Message.Subscribe(list)] else []
    {
      list := [];
      if pendingSubscriptions != {} {
        list := Subscribe(pendingSubscriptions);
      }
    }
  }
}
