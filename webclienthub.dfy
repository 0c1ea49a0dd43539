/**
 * The web-client hub of webclienthub.go: the set of connected web clients,
 * each with a bounded outbound queue, the backlog a client receives when it
 * registers, unregistration, the fan-out of new photos that drops a client
 * whose queue is full, and the control loop that dispatches these.
 */
module Hub {
  import opened PhotoFiles

  /** Capacity of a client's outbound queue: `make(chan []byte, maxMessageSize * 2)`
      with the local `maxMessageSize := 1024` of `NewWebClient`. */
  const SendChanCapacity: nat := 2048

  /** Length of the backlog `GetRecentPhotoFiles` yields. */
  const BacklogLength: nat := 10

  /** A connected client: the messages in its `SendChan`, and whether the hub
      has closed that channel. */
  class WebClient {
    var sendChan: seq<string>
    var closed: bool

    /** `NewWebClient`, without the websocket. */
    constructor ()
      ensures sendChan == [] && !closed
    {
      sendChan := [];
      closed := false;
    }
  }

  /** A buffered send on the client's queue would not block. */
  predicate HasRoom(c: WebClient)
    reads c
  {
    |c.sendChan| < SendChanCapacity
  }

  /** The requests `loop` selects among: a client on `register`, a client on
      `unregister`, or a photo file ready on `newPhotoFiles`. */
  datatype HubMessage = Register(client: WebClient) | Unregister(client: WebClient) | NewPhotoFile

  class WebClientHub {
    var webClients: set<WebClient>
    /** The listener channel this hub registered with the photo file service. */
    const newPhotoFiles: PhotoListener
    const photoFileService: PhotoFileService

    /** Every registered client has an open queue within its capacity. */
    ghost predicate Valid()
      reads this, webClients
    {
      forall c :: c in webClients ==> !c.closed && |c.sendChan| <= SendChanCapacity
    }

    /** The registered clients whose queue has room for one more message. */
    ghost function ClientsWithRoom(): set<WebClient>
      reads this, webClients
    {
      set c | c in webClients && HasRoom(c)
    }

    /** `NewWebClientHub`: no clients yet, and a fresh listener registered
        with the photo file service. */
    constructor (pfs: PhotoFileService)
      modifies pfs
      ensures Valid() && webClients == {}
      ensures photoFileService == pfs
      ensures fresh(newPhotoFiles) && newPhotoFiles.queue == [] && !newPhotoFiles.closed
      ensures pfs.newPhotoListeners == old(pfs.newPhotoListeners) + {newPhotoFiles}
      ensures pfs.photoFiles == old(pfs.photoFiles) && pfs.pathToPhotoFile == old(pfs.pathToPhotoFile)
      ensures pfs.newPhotoFilesChan == old(pfs.newPhotoFilesChan)
    {
      webClients := {};
      photoFileService := pfs;
      var listener := new PhotoListener();
      newPhotoFiles := listener;
      new;
      pfs.RegisterNewPhotoListener(listener);
    }

    /** `registerWebClient`: add the client, then send it the backlog. The
        sends block while the queue is full, so the backlog must fit. */
    method RegisterWebClient(webClient: WebClient)
      requires Valid()
      requires |photoFileService.photoFiles| >= BacklogLength
      requires !webClient.closed && |webClient.sendChan| + BacklogLength <= SendChanCapacity
      modifies this, webClient
      ensures Valid()
      ensures webClients == old(webClients) + {webClient}
      ensures webClient.sendChan == old(webClient.sendChan) + PathsOf(photoFileService.photoFiles[..BacklogLength])
      ensures !webClient.closed
    {
      webClients := webClients + {webClient};
      var recent := photoFileService.GetRecentPhotoFiles();
      assert recent == photoFileService.photoFiles[..BacklogLength];
      for i := 0 to |recent|
        invariant webClients == old(webClients) + {webClient}
        invariant webClient.sendChan == old(webClient.sendChan) + PathsOf(recent[..i])
        invariant !webClient.closed
      {
        assert recent[..i + 1] == recent[..i] + [recent[i]];
        PathsOfAppend(recent[..i], recent[i]);
        webClient.sendChan := webClient.sendChan + [recent[i].String()];
      }
      assert recent[..|recent|] == recent;
    }

    /** `unregisterWebClient`: remove a registered client and close its queue;
        a client that is not registered is left alone. Afterwards the client is
        not registered, so a second call changes nothing. */
    method UnregisterWebClient(webClient: WebClient)
      requires Valid()
      modifies this, webClient
      ensures Valid()
      ensures webClients == old(webClients) - {webClient}
      ensures webClient.closed == (old(webClient.closed) || webClient in old(webClients))
      ensures webClient.sendChan == old(webClient.sendChan)
    {
      if webClient !in webClients {
        return;
      }
      webClients := webClients - {webClient};
      webClient.closed := true;
    }

    /** `broadcastPhotoFile`: every registered client with room receives the
        photo's path; every client whose queue is full is unregistered. */
    method BroadcastPhotoFile(photoFile: PhotoFile)
      requires Valid()
      modifies this, webClients
      ensures Valid()
      ensures webClients == old(ClientsWithRoom())
      ensures forall c :: c in old(webClients) && old(HasRoom(c)) ==>
                c.sendChan == old(c.sendChan) + [photoFile.path] && !c.closed
      ensures forall c :: c in old(webClients) && !old(HasRoom(c)) ==>
                c.sendChan == old(c.sendChan) && c.closed
    {
      var pending := webClients;
      while pending != {}
        invariant pending <= old(webClients)
        invariant webClients == pending + (old(ClientsWithRoom()) - pending)
        invariant Valid()
        invariant forall c :: c in pending ==> c.sendChan == old(c.sendChan) && c.closed == old(c.closed)
        invariant forall c :: c in old(webClients) && c !in pending && old(HasRoom(c)) ==>
                    c.sendChan == old(c.sendChan) + [photoFile.path] && !c.closed
        invariant forall c :: c in old(webClients) && c !in pending && !old(HasRoom(c)) ==>
                    c.sendChan == old(c.sendChan) && c.closed
        decreases pending
      {
        var c :| c in pending;
        if HasRoom(c) {
          assert !c.closed;
          c.sendChan := c.sendChan + [photoFile.String()];
        } else {
          UnregisterWebClient(c);
        }
        pending := pending - {c};
      }
    }

    /** A run of new-photo messages handled one after another by `loop`: a
        client stays registered exactly when its queue has room for all of
        them, and then receives every path, in order; any other client is
        closed once its queue is full, holding the paths that filled it. */
    method BroadcastPhotoFiles(photoFiles: seq<PhotoFile>)
      requires Valid()
      modifies this, webClients
      ensures Valid()
      ensures webClients <= old(webClients)
      ensures forall c :: c in old(webClients) ==>
                (c in webClients <==> |old(c.sendChan)| + |photoFiles| <= SendChanCapacity)
      ensures forall c :: c in webClients ==> c.sendChan == old(c.sendChan) + PathsOf(photoFiles)
      ensures forall c :: c in old(webClients) && c !in webClients ==>
                && c.closed
                && |old(c.sendChan)| <= SendChanCapacity < |old(c.sendChan)| + |photoFiles|
                && c.sendChan == old(c.sendChan) + PathsOf(photoFiles[..SendChanCapacity - |old(c.sendChan)|])
    {
      for i := 0 to |photoFiles|
        invariant Valid()
        invariant webClients <= old(webClients)
        invariant forall c :: c in old(webClients) ==>
                    (c in webClients <==> |old(c.sendChan)| + i <= SendChanCapacity)
        invariant forall c :: c in webClients ==> c.sendChan == old(c.sendChan) + PathsOf(photoFiles[..i])
        invariant forall c :: c in old(webClients) && c !in webClients ==>
                    && c.closed
                    && |old(c.sendChan)| <= SendChanCapacity < |old(c.sendChan)| + i
                    && c.sendChan == old(c.sendChan) + PathsOf(photoFiles[..SendChanCapacity - |old(c.sendChan)|])
      {
        PathsOfAppend(photoFiles[..i], photoFiles[i]);
        assert photoFiles[..i + 1] == photoFiles[..i] + [photoFiles[i]];
        PathsOfPrefix(photoFiles, i);
        BroadcastPhotoFile(photoFiles[i]);
      }
      assert photoFiles[..|photoFiles|] == photoFiles;
    }

    /** One iteration of `loop`: the selected request goes to exactly one of
        `registerWebClient`, `unregisterWebClient` or `broadcastPhotoFile`. */
    method Step(msg: HubMessage)
      requires Valid()
      requires msg.Register? ==>
                 && |photoFileService.photoFiles| >= BacklogLength
                 && !msg.client.closed
                 && |msg.client.sendChan| + BacklogLength <= SendChanCapacity
      requires msg.NewPhotoFile? ==> newPhotoFiles.queue != []
      modifies this, newPhotoFiles, if msg.NewPhotoFile? then webClients else {msg.client}
      ensures Valid()
      ensures msg.Register? ==>
                && webClients == old(webClients) + {msg.client}
                && msg.client.sendChan == old(msg.client.sendChan) + PathsOf(photoFileService.photoFiles[..BacklogLength])
      ensures msg.Unregister? ==>
                && webClients == old(webClients) - {msg.client}
                && msg.client.closed == (old(msg.client.closed) || msg.client in old(webClients))
                && msg.client.sendChan == old(msg.client.sendChan)
      ensures newPhotoFiles.closed == old(newPhotoFiles.closed)
      ensures !msg.NewPhotoFile? ==> newPhotoFiles.queue == old(newPhotoFiles.queue)
      ensures msg.NewPhotoFile? ==>
                && newPhotoFiles.queue == old(newPhotoFiles.queue)[1..]
                && webClients == old(ClientsWithRoom())
                && (forall c :: c in old(webClients) && old(HasRoom(c)) ==>
                      c.sendChan == old(c.sendChan) + [old(newPhotoFiles.queue)[0].path] && !c.closed)
                && (forall c :: c in old(webClients) && !old(HasRoom(c)) ==>
                      c.sendChan == old(c.sendChan) && c.closed)
    {
      match msg
      case Register(webClient) =>
        RegisterWebClient(webClient);
      case Unregister(webClient) =>
        UnregisterWebClient(webClient);
      case NewPhotoFile =>
        var photoFile := newPhotoFiles.queue[0];
        newPhotoFiles.queue := newPhotoFiles.queue[1..];
        BroadcastPhotoFile(photoFile);
    }
  }
}
