/**
 * Mutual authentication of a local client and server
 * (crates/morons-protocol/src/authentication.rs).
 *
 * HMAC-SHA256 under the shared key is an ideal MAC: a proof verifies exactly when a key holder
 * computed it for the same input.  The network is arbitrary: every delivered payload is chosen
 * freely, so dropping, replaying, reordering, redirecting and inventing records are all covered.
 */
module Authentication {
  import opened Basics
  import Framing

  const AUTH_PROTOCOL_VERSION := 1
  const AUTHENTICATION_CONTEXT: seq<Byte> :=
    [109, 111, 114, 111, 110, 115, 46, 100, 101, 118, 47, 108, 111, 99, 97, 108, 45,
     105, 112, 99, 45, 97, 117, 116, 104]
  const SERVER_CHALLENGE_TAG: Byte := 1
  const CLIENT_PROOF_TAG: Byte := 2
  const SERVER_PROOF_TAG: Byte := 3
  const CLIENT_PROOF_ROLE: Byte := 1
  const SERVER_PROOF_ROLE: Byte := 2
  const SERVER_CHALLENGE_BYTES := 53
  const CLIENT_PROOF_BYTES := 65
  const SERVER_PROOF_BYTES := 33

  type Epoch = s: seq<Byte> | |s| == 16 witness seq(16, _ => 0)
  type Nonce = s: seq<Byte> | |s| == 32 witness seq(32, _ => 0)
  type Proof = s: seq<Byte> | |s| == 32 witness seq(32, _ => 0)
  type Version = v: int | 0 <= v < Framing.U32_LIMIT

  // ----- records -----

  datatype Record =
    | ServerChallenge(version: Version, epoch: Epoch, nonce: Nonce)
    | ClientProof(clientNonce: Nonce, proof: Proof)
    | ServerProof(serverProof: Proof)

  datatype RecordError =
    | EmptyPayload
    | UnknownTag(tag: Byte)
    | InvalidPayloadLength(tag: Byte, expected: nat, received: nat)

  function Encode(record: Record): (payload: seq<Byte>)
  {
    match record
    case ServerChallenge(version, epoch, nonce) =>
      [SERVER_CHALLENGE_TAG] + Framing.ToBigEndian(version) + epoch + nonce
    case ClientProof(nonce, proof) => [CLIENT_PROOF_TAG] + nonce + proof
    case ServerProof(proof) => [SERVER_PROOF_TAG] + proof
  }

  function ExpectedBytes(tag: Byte): (n: Option<nat>)
  {
    if tag == SERVER_CHALLENGE_TAG then Some(SERVER_CHALLENGE_BYTES)
    else if tag == CLIENT_PROOF_TAG then Some(CLIENT_PROOF_BYTES)
    else if tag == SERVER_PROOF_TAG then Some(SERVER_PROOF_BYTES)
    else None
  }

  function Decode(payload: seq<Byte>): (r: Result<Record, RecordError>)
  {
    if payload == [] then Err(EmptyPayload)
    else
      var tag := payload[0];
      match ExpectedBytes(tag)
      case None => Err(UnknownTag(tag))
      case Some(expected) =>
        if |payload| != expected then Err(InvalidPayloadLength(tag, expected, |payload|))
        else if tag == SERVER_CHALLENGE_TAG then
          Ok(ServerChallenge(Framing.FromBigEndian(payload[1..5]), payload[5..21], payload[21..53]))
        else if tag == CLIENT_PROOF_TAG then Ok(ClientProof(payload[1..33], payload[33..65]))
        else Ok(ServerProof(payload[1..33]))
  }

  lemma {:induction false} DecodeEncode(record: Record)
    ensures Decode(Encode(record)) == Ok(record)
  {
    var payload := Encode(record);
    match record
    case ServerChallenge(version, epoch, nonce) =>
      assert payload[1..5] == Framing.ToBigEndian(version);
      assert payload[5..21] == epoch;
      assert payload[21..53] == nonce;
      Framing.HeaderRoundTrip(version);
    case ClientProof(nonce, proof) =>
      assert payload[1..33] == nonce;
      assert payload[33..65] == proof;
    case ServerProof(proof) =>
      assert payload[1..33] == proof;
  }

  /** A payload decodes to at most the record it encodes: no two byte strings carry one record. */
  lemma {:induction false} EncodeDecode(payload: seq<Byte>)
    requires Decode(payload).Ok?
    ensures Encode(Decode(payload).value) == payload
  {
    if payload[0] == SERVER_CHALLENGE_TAG {
      Framing.HeaderUnique(payload[1..5]);
    }
  }

  // ----- proofs -----

  datatype Exchange = Exchange(serverNonce: Nonce, clientNonce: Nonce)

  /** The bytes fed to the MAC, in the order the program feeds them. */
  function MacInput(role: Byte, epoch: Epoch, exchange: Exchange): seq<Byte>
  {
    AUTHENTICATION_CONTEXT + [role] + Framing.ToBigEndian(AUTH_PROTOCOL_VERSION)
      + epoch + exchange.serverNonce + exchange.clientNonce
  }

  /** Fixed widths make the MAC input determine the role, the epoch and both nonces. */
  lemma {:induction false} MacInputInjective(role: Byte, epoch: Epoch, exchange: Exchange,
                          role': Byte, epoch': Epoch, exchange': Exchange)
    requires MacInput(role, epoch, exchange) == MacInput(role', epoch', exchange')
    ensures role == role' && epoch == epoch' && exchange == exchange'
  {
    MacInputFields(role, epoch, exchange);
    MacInputFields(role', epoch', exchange');
  }

  lemma {:induction false} MacInputFields(role: Byte, epoch: Epoch, exchange: Exchange)
    ensures var input := MacInput(role, epoch, exchange);
      |input| == 110 && input[25] == role && input[30..46] == epoch
      && input[46..78] == exchange.serverNonce && input[78..110] == exchange.clientNonce
  {
  }

  // ----- sessions -----

  datatype AuthenticationError =
    | PeerDisconnected
    | InvalidRecord(error: RecordError)
    | UnexpectedRecord
    | ProtocolVersionMismatch(received: Version)
    | HostEpochMismatch
    | InvalidProof

  datatype Client =
    | AwaitingChallenge(epoch: Epoch)
    | AwaitingServerProof(epoch: Epoch, exchange: Exchange)
    | Authenticated(epoch: Epoch, exchange: Exchange)
    | ClientFailed(epoch: Epoch, attempted: Option<Exchange>, error: AuthenticationError)

  datatype Server =
    | AwaitingClientProof(epoch: Epoch, nonce: Nonce)
    | Accepted(epoch: Epoch, exchange: Exchange)
    | ServerFailed(epoch: Epoch, nonce: Nonce, error: AuthenticationError)

  /**
   * `issued` is the ideal MAC: the proof of every input a key holder has computed.
   * Nonces come from the operating system's generator and are taken not to repeat.
   */
  datatype State = State(
    issued: map<seq<Byte>, Proof>,
    clients: map<nat, Client>,
    servers: map<nat, Server>,
    nonces: set<Nonce>)

  const INITIAL := State(map[], map[], map[], {})

  datatype Step =
    | OpenServer(id: nat, epoch: Epoch, nonce: Nonce)
    | OpenClient(id: nat, epoch: Epoch)
    | DeliverToServer(id: nat, payload: Option<seq<Byte>>, mac: Proof)
    | DeliverToClient(id: nat, payload: Option<seq<Byte>>, nonce: Nonce, mac: Proof)

  function Issue(issued: map<seq<Byte>, Proof>, input: seq<Byte>, mac: Proof): map<seq<Byte>, Proof>
  {
    if input in issued then issued else issued[input := mac]
  }

  function NonceOf(v: Server): Nonce
  {
    if v.Accepted? then v.exchange.serverNonce else v.nonce
  }

  /** The exchange a client has answered for, whatever became of it. */
  function ExchangeOf(c: Client): Option<Exchange>
  {
    match c
    case AwaitingChallenge(_) => None
    case AwaitingServerProof(_, e) => Some(e)
    case Authenticated(_, e) => Some(e)
    case ClientFailed(_, attempted, _) => attempted
  }

  predicate Verifies(s: State, input: seq<Byte>, proof: Proof)
  {
    input in s.issued && s.issued[input] == proof
  }

  /** A received frame as a record, or the error a session stops with. */
  function Receive(payload: Option<seq<Byte>>): (r: Result<Record, AuthenticationError>)
  {
    match payload
    case None => Err(PeerDisconnected)
    case Some(bytes) =>
      match Decode(bytes)
      case Err(error) => Err(InvalidRecord(error))
      case Ok(record) => Ok(record)
  }

  /** The client's first read: the server nonce it will answer, or its error. */
  function ReadChallenge(epoch: Epoch, payload: Option<seq<Byte>>): (r: Result<Nonce, AuthenticationError>)
  {
    match Receive(payload)
    case Err(error) => Err(error)
    case Ok(record) =>
      if !record.ServerChallenge? then Err(UnexpectedRecord)
      else if record.version != AUTH_PROTOCOL_VERSION then Err(ProtocolVersionMismatch(record.version))
      else if record.epoch != epoch then Err(HostEpochMismatch)
      else Ok(record.nonce)
  }

  /** What a client becomes when `payload` arrives; `nonce` is the one it would generate. */
  function ClientTurn(s: State, client: Client, payload: Option<seq<Byte>>, nonce: Nonce): (c: Client)
    ensures c.epoch == client.epoch
    ensures ExchangeOf(client).Some? ==> ExchangeOf(c) == ExchangeOf(client)
    ensures ExchangeOf(client).None? && ExchangeOf(c).Some? ==>
      c.AwaitingServerProof? && c.exchange.clientNonce == nonce && nonce !in s.nonces
    ensures c.Authenticated? && c != client ==>
      ExchangeOf(client).Some? && MacInput(SERVER_PROOF_ROLE, c.epoch, c.exchange) in s.issued
  {
    match client
    case AwaitingChallenge(epoch) =>
      (match ReadChallenge(epoch, payload)
       case Err(error) => ClientFailed(epoch, None, error)
       case Ok(serverNonce) =>
         if nonce in s.nonces then client
         else AwaitingServerProof(epoch, Exchange(serverNonce, nonce)))
    case AwaitingServerProof(epoch, exchange) =>
      (match Receive(payload)
       case Err(error) => ClientFailed(epoch, Some(exchange), error)
       case Ok(record) =>
         if !record.ServerProof? then ClientFailed(epoch, Some(exchange), UnexpectedRecord)
         else if Verifies(s, MacInput(SERVER_PROOF_ROLE, epoch, exchange), record.serverProof) then
           Authenticated(epoch, exchange)
         else ClientFailed(epoch, Some(exchange), InvalidProof))
    case Authenticated(_, _) => client
    case ClientFailed(_, _, _) => client
  }

  function ServerTurn(s: State, server: Server, payload: Option<seq<Byte>>): (v: Server)
    ensures v.epoch == server.epoch && NonceOf(v) == NonceOf(server)
    ensures server.Accepted? ==> v == server
    ensures v.Accepted? && v != server ==>
      server.AwaitingClientProof? && MacInput(CLIENT_PROOF_ROLE, v.epoch, v.exchange) in s.issued
  {
    match server
    case AwaitingClientProof(epoch, nonce) =>
      (match Receive(payload)
       case Err(error) => ServerFailed(epoch, nonce, error)
       case Ok(record) =>
         if !record.ClientProof? then ServerFailed(epoch, nonce, UnexpectedRecord)
         else
           var exchange := Exchange(nonce, record.clientNonce);
           if Verifies(s, MacInput(CLIENT_PROOF_ROLE, epoch, exchange), record.proof) then
             Accepted(epoch, exchange)
           else ServerFailed(epoch, nonce, InvalidProof))
    case Accepted(_, _) => server
    case ServerFailed(_, _, _) => server
  }

  /** A client that has just answered a challenge has computed its proof and used its nonce. */
  function ClientStep(s: State, id: nat, payload: Option<seq<Byte>>, nonce: Nonce, mac: Proof): State
    requires id in s.clients
  {
    var c := ClientTurn(s, s.clients[id], payload, nonce);
    var sent := ExchangeOf(s.clients[id]).None? && ExchangeOf(c).Some?;
    State(
      if sent then Issue(s.issued, MacInput(CLIENT_PROOF_ROLE, c.epoch, ExchangeOf(c).value), mac) else s.issued,
      s.clients[id := c], s.servers, if sent then s.nonces + {nonce} else s.nonces)
  }

  /** A server that has just accepted has computed its own proof. */
  function ServerStep(s: State, id: nat, payload: Option<seq<Byte>>, mac: Proof): State
    requires id in s.servers
  {
    var v := ServerTurn(s, s.servers[id], payload);
    var sent := !s.servers[id].Accepted? && v.Accepted?;
    State(
      if sent then Issue(s.issued, MacInput(SERVER_PROOF_ROLE, v.epoch, v.exchange), mac) else s.issued,
      s.clients, s.servers[id := v], s.nonces)
  }

  function Apply(s: State, step: Step): State
  {
    match step
    case OpenServer(id, epoch, nonce) =>
      if id in s.servers || nonce in s.nonces then s
      else s.(servers := s.servers[id := AwaitingClientProof(epoch, nonce)], nonces := s.nonces + {nonce})
    case OpenClient(id, epoch) =>
      if id in s.clients then s else s.(clients := s.clients[id := AwaitingChallenge(epoch)])
    case DeliverToServer(id, payload, mac) =>
      if id in s.servers then ServerStep(s, id, payload, mac) else s
    case DeliverToClient(id, payload, nonce, mac) =>
      if id in s.clients then ClientStep(s, id, payload, nonce, mac) else s
  }

  function Run(s: State, steps: seq<Step>): State
    decreases steps
  {
    if steps == [] then s else Run(Apply(s, steps[0]), steps[1..])
  }

  // ----- what every run keeps -----

  /** Client `id` has computed the proof of `input`. */
  predicate ByClient(s: State, id: nat, input: seq<Byte>)
  {
    id in s.clients && ExchangeOf(s.clients[id]).Some?
    && input == MacInput(CLIENT_PROOF_ROLE, s.clients[id].epoch, ExchangeOf(s.clients[id]).value)
  }

  predicate ByServer(s: State, id: nat, input: seq<Byte>)
  {
    id in s.servers && s.servers[id].Accepted?
    && input == MacInput(SERVER_PROOF_ROLE, s.servers[id].epoch, s.servers[id].exchange)
  }

  /** Only sessions compute proofs: a client for its own attempt, a server for what it accepted. */
  ghost predicate ProofsHaveAuthors(s: State)
  {
    forall input :: input in s.issued ==>
      (exists id :: ByClient(s, id, input)) || (exists id :: ByServer(s, id, input))
  }

  ghost predicate VerdictsHaveProofs(s: State)
  {
    && (forall id :: id in s.clients && s.clients[id].Authenticated? ==>
          MacInput(SERVER_PROOF_ROLE, s.clients[id].epoch, s.clients[id].exchange) in s.issued)
    && (forall id :: id in s.servers && s.servers[id].Accepted? ==>
          MacInput(CLIENT_PROOF_ROLE, s.servers[id].epoch, s.servers[id].exchange) in s.issued)
  }

  predicate Answered(s: State, id: nat)
  {
    id in s.clients && ExchangeOf(s.clients[id]).Some?
  }

  function ClientNonce(s: State, id: nat): Nonce
    requires Answered(s, id)
  {
    ExchangeOf(s.clients[id]).value.clientNonce
  }

  ghost predicate NoncesIdentifySessions(s: State)
  {
    && (forall id :: id in s.servers ==> NonceOf(s.servers[id]) in s.nonces)
    && (forall id :: Answered(s, id) ==> ClientNonce(s, id) in s.nonces)
    && (forall a, b :: a in s.servers && b in s.servers && a != b ==>
          NonceOf(s.servers[a]) != NonceOf(s.servers[b]))
    && (forall a, b :: Answered(s, a) && Answered(s, b) && a != b ==> ClientNonce(s, a) != ClientNonce(s, b))
  }

  ghost predicate Inv(s: State)
  {
    ProofsHaveAuthors(s) && VerdictsHaveProofs(s) && NoncesIdentifySessions(s)
  }

  lemma {:induction false} StepKeepsAuthors(s: State, step: Step)
    requires ProofsHaveAuthors(s)
    ensures ProofsHaveAuthors(Apply(s, step))
  {
    hide ClientTurn, ServerTurn, MacInput;
    var s' := Apply(s, step);
    forall input | input in s'.issued
      ensures (exists id :: ByClient(s', id, input)) || (exists id :: ByServer(s', id, input))
    {
      if input in s.issued {
        if id :| ByClient(s, id, input) {
          assert ByClient(s', id, input);
        } else {
          var id :| ByServer(s, id, input);
          assert ByServer(s', id, input);
        }
      } else if step.DeliverToClient? {
        assert ByClient(s', step.id, input);
      } else {
        assert ByServer(s', step.id, input);
      }
    }
  }

  lemma {:induction false} StepKeepsVerdicts(s: State, step: Step)
    requires VerdictsHaveProofs(s)
    ensures VerdictsHaveProofs(Apply(s, step))
  {
    hide ClientTurn, ServerTurn, MacInput;
  }

  lemma {:induction false} StepKeepsNonces(s: State, step: Step)
    requires NoncesIdentifySessions(s)
    ensures NoncesIdentifySessions(Apply(s, step))
  {
    hide ClientTurn, ServerTurn, MacInput, Issue, NonceOf, ExchangeOf;
    match step
    case OpenServer(id, epoch, nonce) => OpenServerKeepsNonces(s, id, epoch, nonce);
    case OpenClient(id, epoch) => OpenClientKeepsNonces(s, id, epoch);
    case DeliverToServer(id, payload, mac) =>
      if id in s.servers { ServerStepKeepsNonces(s, id, payload, mac); }
    case DeliverToClient(id, payload, nonce, mac) =>
      if id in s.clients { ClientStepKeepsNonces(s, id, payload, nonce, mac); }
  }

  lemma {:induction false} OpenServerKeepsNonces(s: State, id: nat, epoch: Epoch, nonce: Nonce)
    requires NoncesIdentifySessions(s)
    ensures NoncesIdentifySessions(Apply(s, OpenServer(id, epoch, nonce)))
  {
    var s' := Apply(s, OpenServer(id, epoch, nonce));
    assert forall c :: Answered(s', c) ==> Answered(s, c) && ClientNonce(s', c) == ClientNonce(s, c);
  }

  lemma {:induction false} OpenClientKeepsNonces(s: State, id: nat, epoch: Epoch)
    requires NoncesIdentifySessions(s)
    ensures NoncesIdentifySessions(Apply(s, OpenClient(id, epoch)))
  {
    hide NonceOf;
    var s' := Apply(s, OpenClient(id, epoch));
    assert forall c :: Answered(s', c) ==> Answered(s, c) && ClientNonce(s', c) == ClientNonce(s, c);
  }

  lemma {:induction false} ServerStepKeepsNonces(s: State, id: nat, payload: Option<seq<Byte>>, mac: Proof)
    requires NoncesIdentifySessions(s) && id in s.servers
    ensures NoncesIdentifySessions(ServerStep(s, id, payload, mac))
  {
    hide ServerTurn, MacInput, Issue, NonceOf, ExchangeOf;
    var s' := ServerStep(s, id, payload, mac);
    assert forall c :: Answered(s', c) ==> Answered(s, c) && ClientNonce(s', c) == ClientNonce(s, c);
    assert forall v :: v in s'.servers ==> v in s.servers && NonceOf(s'.servers[v]) == NonceOf(s.servers[v]);
  }

  lemma {:induction false} ClientStepKeepsNonces(s: State, id: nat, payload: Option<seq<Byte>>, nonce: Nonce,
        mac: Proof)
    requires NoncesIdentifySessions(s) && id in s.clients
    ensures NoncesIdentifySessions(ClientStep(s, id, payload, nonce, mac))
  {
    hide ClientTurn, MacInput, Issue, NonceOf;
    var s' := ClientStep(s, id, payload, nonce, mac);
    assert s.nonces <= s'.nonces;
    forall c | Answered(s', c) && c != id
      ensures Answered(s, c) && ClientNonce(s', c) == ClientNonce(s, c)
    {
    }
    if Answered(s', id) && !Answered(s, id) {
      assert ClientNonce(s', id) == nonce;
    }
  }

  lemma {:induction false} StepKeepsInv(s: State, step: Step)
    requires Inv(s)
    ensures Inv(Apply(s, step))
  {
    hide Apply, ProofsHaveAuthors, VerdictsHaveProofs, NoncesIdentifySessions;
    StepKeepsAuthors(s, step);
    StepKeepsVerdicts(s, step);
    StepKeepsNonces(s, step);
  }

  lemma {:induction false} RunKeepsInv(s: State, steps: seq<Step>)
    requires Inv(s)
    ensures Inv(Run(s, steps))
    decreases steps
  {
    if steps != [] {
      StepKeepsInv(s, steps[0]);
      RunKeepsInv(Apply(s, steps[0]), steps[1..]);
    }
  }

  // ----- agreement -----

  lemma {:induction false} ServerProofHasServer(s: State, epoch: Epoch, exchange: Exchange) returns (v: nat)
    requires ProofsHaveAuthors(s) && MacInput(SERVER_PROOF_ROLE, epoch, exchange) in s.issued
    ensures v in s.servers && s.servers[v] == Accepted(epoch, exchange)
  {
    var input := MacInput(SERVER_PROOF_ROLE, epoch, exchange);
    if id :| ByClient(s, id, input) {
      MacInputInjective(SERVER_PROOF_ROLE, epoch, exchange,
                        CLIENT_PROOF_ROLE, s.clients[id].epoch, ExchangeOf(s.clients[id]).value);
      assert false;
    }
    v :| ByServer(s, v, input);
    MacInputInjective(SERVER_PROOF_ROLE, epoch, exchange,
                      SERVER_PROOF_ROLE, s.servers[v].epoch, s.servers[v].exchange);
  }

  lemma {:induction false} ClientProofHasClient(s: State, epoch: Epoch, exchange: Exchange) returns (c: nat)
    requires ProofsHaveAuthors(s) && MacInput(CLIENT_PROOF_ROLE, epoch, exchange) in s.issued
    ensures c in s.clients && s.clients[c].epoch == epoch && ExchangeOf(s.clients[c]) == Some(exchange)
  {
    var input := MacInput(CLIENT_PROOF_ROLE, epoch, exchange);
    if id :| ByServer(s, id, input) {
      MacInputInjective(CLIENT_PROOF_ROLE, epoch, exchange,
                        SERVER_PROOF_ROLE, s.servers[id].epoch, s.servers[id].exchange);
      assert false;
    }
    c :| ByClient(s, c, input);
    MacInputInjective(CLIENT_PROOF_ROLE, epoch, exchange,
                      CLIENT_PROOF_ROLE, s.clients[c].epoch, ExchangeOf(s.clients[c]).value);
  }

  /**
   * A client that finishes was answered by exactly one server session: one under the epoch the
   * client expected, which issued the nonce the client answered and accepted that client's nonce.
   */
  lemma {:induction false} AuthenticatedClientHasServer(steps: seq<Step>, c: nat) returns (v: nat)
    requires c in Run(INITIAL, steps).clients && Run(INITIAL, steps).clients[c].Authenticated?
    ensures var s := Run(INITIAL, steps);
      && v in s.servers && s.servers[v] == Accepted(s.clients[c].epoch, s.clients[c].exchange)
      && forall w :: w in s.servers && NonceOf(s.servers[w]) == s.clients[c].exchange.serverNonce ==> w == v
  {
    RunKeepsInv(INITIAL, steps);
    hide MacInput, ProofsHaveAuthors;
    var s := Run(INITIAL, steps);
    v := ServerProofHasServer(s, s.clients[c].epoch, s.clients[c].exchange);
    hide Run;
  }

  /** A server that accepts was answered by exactly one client session, for the same epoch and nonces. */
  lemma {:induction false} AcceptingServerHasClient(steps: seq<Step>, v: nat) returns (c: nat)
    requires v in Run(INITIAL, steps).servers && Run(INITIAL, steps).servers[v].Accepted?
    ensures var s := Run(INITIAL, steps);
      && c in s.clients && s.clients[c].epoch == s.servers[v].epoch
      && ExchangeOf(s.clients[c]) == Some(s.servers[v].exchange)
      && forall d :: Answered(s, d) && ClientNonce(s, d) == s.servers[v].exchange.clientNonce ==> d == c
  {
    RunKeepsInv(INITIAL, steps);
    hide MacInput, ProofsHaveAuthors;
    var s := Run(INITIAL, steps);
    c := ClientProofHasClient(s, s.servers[v].epoch, s.servers[v].exchange);
    assert Answered(s, c);
    hide Run;
  }

  /** No server session serves two clients: replaying one exchange cannot finish a second client. */
  lemma {:induction false} AgreementIsInjective(steps: seq<Step>, a: nat, b: nat)
    requires a in Run(INITIAL, steps).clients && Run(INITIAL, steps).clients[a].Authenticated?
    requires b in Run(INITIAL, steps).clients && Run(INITIAL, steps).clients[b].Authenticated?
    requires Run(INITIAL, steps).clients[a].exchange.serverNonce
          == Run(INITIAL, steps).clients[b].exchange.serverNonce
    ensures a == b
  {
    var s := Run(INITIAL, steps);
    var v := AuthenticatedClientHasServer(steps, a);
    var w := AuthenticatedClientHasServer(steps, b);
    hide Run;
    assert w == v;
    var c := AcceptingServerHasClient(steps, v);
    assert Answered(s, a) && Answered(s, b);
  }

  /** On a network that delivers, the exchange succeeds from every reachable state. */
  lemma {:induction false} HonestExchangeSucceeds(s: State, v: nat, c: nat, epoch: Epoch, sn: Nonce, cn: Nonce,
        p: Proof, q: Proof)
    requires Inv(s) && v !in s.servers && c !in s.clients
    requires sn !in s.nonces && cn !in s.nonces && sn != cn
    ensures var exchange := Exchange(sn, cn);
      var s1 := Apply(Apply(s, OpenServer(v, epoch, sn)), OpenClient(c, epoch));
      var s2 := Apply(s1, DeliverToClient(c, Some(Encode(ServerChallenge(AUTH_PROTOCOL_VERSION, epoch, sn))), cn, p));
      var input := MacInput(CLIENT_PROOF_ROLE, epoch, exchange);
      && input in s2.issued
      && var s3 := Apply(s2, DeliverToServer(v, Some(Encode(ClientProof(cn, s2.issued[input]))), q));
         var input' := MacInput(SERVER_PROOF_ROLE, epoch, exchange);
      && input' in s3.issued
      && var s4 := Apply(s3, DeliverToClient(c, Some(Encode(ServerProof(s3.issued[input']))), cn, q));
      && s4.servers[v] == Accepted(epoch, exchange) && s4.clients[c] == Authenticated(epoch, exchange)
  {
    var exchange := Exchange(sn, cn);
    DecodeEncode(ServerChallenge(AUTH_PROTOCOL_VERSION, epoch, sn));
    var s1 := Apply(Apply(s, OpenServer(v, epoch, sn)), OpenClient(c, epoch));
    var s2 := Apply(s1, DeliverToClient(c, Some(Encode(ServerChallenge(AUTH_PROTOCOL_VERSION, epoch, sn))), cn, p));
    var proof := s2.issued[MacInput(CLIENT_PROOF_ROLE, epoch, exchange)];
    DecodeEncode(ClientProof(cn, proof));
    var s3 := Apply(s2, DeliverToServer(v, Some(Encode(ClientProof(cn, proof))), q));
    DecodeEncode(ServerProof(s3.issued[MacInput(SERVER_PROOF_ROLE, epoch, exchange)]));
  }
}
