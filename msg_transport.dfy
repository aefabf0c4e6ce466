/**
 * LndMsgTransportClient: sends application messages to peers through the
 * node's custom-message transport.
 *
 * SendMessage encodes a typed wire message, wraps the bytes in an envelope
 * addressed to the peer's node identity and hands it to the node. The wire
 * encoding (lnwire.Message.Encode) is not modelled: the client receives it
 * as a function that may fail.
 */
module MsgTransport {
  import opened Wrappers
  import opened Wire
  import opened Lnd

  /** lnwire.Message: its message type and its typed fields. */
  datatype WireMessage = WireMessage(msgType: uint16, fields: seq<seq<bv8>>)

  /** Why a message could not be encoded. */
  datatype EncodeError = EncodeError(reason: string)

  datatype TransportError =
    | EncodeFailed(cause: EncodeError)     // "unable to encode message: ..."
    | SendFailed(rpcError: RpcError)

  /** The envelope SendMessage hands to the node for an encoded message. */
  function Envelope(peer: PublicKey, msg: WireMessage, payload: seq<bv8>): (envelope: CustomMessage)
  {
    CustomMessage(NewVertex(peer), msg.msgType as int as uint32, payload)
  }

  /** The error SendMessage returns, given the encoder's answer. */
  function SendOutcome(encoded: Result<seq<bv8>, EncodeError>, peer: PublicKey, msg: WireMessage,
                       accepted: set<CustomMessage>): (r: Outcome<TransportError>)
    ensures r.Pass? <==> encoded.Success? && Envelope(peer, msg, encoded.value) in accepted
    ensures encoded.Failure? ==> r == Fail(EncodeFailed(encoded.error))
    ensures encoded.Success? && r.Fail? ==> r == Fail(SendFailed(MessageRejected(Envelope(peer, msg, encoded.value))))
  {
    match encoded
    case Failure(e) => Fail(EncodeFailed(e))
    case Success(payload) =>
      match SendReply(accepted, Envelope(peer, msg, payload))
      case Pass => Pass
      case Fail(e) => Fail(SendFailed(e))
  }

  /** The requests SendMessage sends: none when encoding fails, otherwise the one envelope. */
  function SendCalls(encoded: Result<seq<bv8>, EncodeError>, peer: PublicKey, msg: WireMessage): (calls: seq<Call>)
  {
    match encoded
    case Failure(_) => []
    case Success(payload) => [SendCustomMessageCall(Envelope(peer, msg, payload))]
  }

  /**
   * The envelope carries the peer's identity, the message's own type code
   * and the encoded body. lnwire's Encode writes only the body, the type
   * travelling beside it, so a decoder is given both: for any decoder that
   * rebuilds a message from its type code and its body, the envelope's type
   * code and data decode back to the message.
   */
  lemma EnvelopeRoundTrip(encode: WireMessage -> Result<seq<bv8>, EncodeError>,
                          decode: (uint32, seq<bv8>) -> Result<WireMessage, EncodeError>,
                          peer: PublicKey, msg: WireMessage)
    requires forall m :: encode(m).Success? ==> decode(m.msgType as int as uint32, encode(m).value) == Success(m)
    requires encode(msg).Success?
    ensures SendCalls(encode(msg), peer, msg) == [SendCustomMessageCall(Envelope(peer, msg, encode(msg).value))]
    ensures Envelope(peer, msg, encode(msg).value).peer == NewVertex(peer)
    ensures Envelope(peer, msg, encode(msg).value).msgType as int == msg.msgType as int
    ensures decode(Envelope(peer, msg, encode(msg).value).msgType, Envelope(peer, msg, encode(msg).value).data) == Success(msg)
  {
  }

  class LndMsgTransportClient {
    const lnd: LndServices
    /** lnwire.Message.Encode at protocol version 0, not modelled. */
    const encode: WireMessage -> Result<seq<bv8>, EncodeError>

    /** NewLndMsgTransportClient. */
    constructor (lnd: LndServices, encode: WireMessage -> Result<seq<bv8>, EncodeError>)
      ensures this.lnd == lnd && this.encode == encode
    {
      this.lnd := lnd;
      this.encode := encode;
    }

    method SendCustomMessage(msg: CustomMessage) returns (r: Outcome<RpcError>)
      modifies lnd
      ensures r == SendReply(lnd.acceptedMessages, msg)
      ensures lnd.log == old(lnd.log) + [SendCustomMessageCall(msg)]
    {
      r := lnd.SendCustomMessage(msg);
    }

    /**
     * Sends `msg` to `peer`. An encoding failure is reported before anything
     * is sent; otherwise exactly one envelope goes to the node and its
     * answer is the result.
     */
    method SendMessage(peer: PublicKey, msg: WireMessage) returns (r: Outcome<TransportError>)
      modifies lnd
      ensures r == SendOutcome(encode(msg), peer, msg, lnd.acceptedMessages)
      ensures lnd.log == old(lnd.log) + SendCalls(encode(msg), peer, msg)
    {
      var encoded := encode(msg);
      if encoded.Failure? {
        return Fail(EncodeFailed(encoded.error));
      }
      var sent := SendCustomMessage(Envelope(peer, msg, encoded.value));
      r := match sent
        case Pass => Pass
        case Fail(e) => Fail(SendFailed(e));
    }
  }
}
