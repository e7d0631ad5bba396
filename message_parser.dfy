/** `MessageParser.Resolve` of the RabbitMQ transport: turns the properties
    and body of a delivered message into a message, through a fixed chain of
    checks. Text decoding, type resolution and deserialisation are foreign
    code and stay abstract: they are the parser's function-valued fields. */
module RabbitParser {
  import opened Wrappers
  import opened Messaging

  type Byte = bv8

  /** A value in the headers dictionary: a byte array, or any other object (null included). */
  datatype HeaderValue = ByteArray(bytes: seq<Byte>) | NotByteArray

  /** `IBasicProperties`: only its headers matter; None is a null dictionary. */
  datatype BasicProperties = BasicProperties(headers: Option<map<string, HeaderValue>>)

  /** A `System.Type` returned by the type resolver. */
  datatype ClrType = ClrType(fullName: string)

  /** What the deserializer returns: an `IMessage`, or something else (null included). */
  datatype Decoded = DecodedMessage(message: Message) | NotAMessage

  /** The exceptions the parser throws, one per check. */
  datatype ParseError =
    | NullDecoder                       // constructor: null serializer
    | NullTypeResolver                  // constructor: null type resolver
    | MissingProperties                 // ArgumentNullException: null properties
    | MissingHeaders                    // ArgumentNullException: "message headers are missing"
    | InvalidMessageType                // ArgumentException: "invalid message type"
    | UnknownMessageType(name: string)  // ArgumentException: "unable to detect message type from headers"
    | WrongMessageType(name: string)    // ArgumentException: "message has the wrong type"

  /** A parser with its collaborators:
      messageTypeHeader is the key named by `HeaderNames.MessageType`,
      utf8 stands for `Encoding.UTF8.GetString`,
      typeResolver for `ITypeResolver.Resolve` (None: null),
      decoder for `ITransportSerializer.Deserialize`. */
  datatype MessageParser = MessageParser(
    messageTypeHeader: string,
    utf8: seq<Byte> -> string,
    typeResolver: string -> Option<ClrType>,
    decoder: (seq<Byte>, ClrType) -> Decoded)
  {
    /** The header checks: a type-name header must be present and hold a byte
        array; its text is the message type name. */
    function MessageTypeName(properties: Option<BasicProperties>): (r: Result<string, ParseError>)
      ensures properties.None? <==> r == Failure(MissingProperties)
      ensures properties.Some? && properties.value.headers.None? <==> r == Failure(MissingHeaders)
      ensures r == Failure(InvalidMessageType) <==>
        properties.Some? && properties.value.headers.Some? &&
        !(messageTypeHeader in properties.value.headers.value &&
          properties.value.headers.value[messageTypeHeader].ByteArray?)
      ensures r.Success? ==>
        properties.Some? && properties.value.headers.Some? &&
        messageTypeHeader in properties.value.headers.value &&
        properties.value.headers.value[messageTypeHeader].ByteArray? &&
        r.value == utf8(properties.value.headers.value[messageTypeHeader].bytes)
      ensures (properties.Some? && properties.value.headers.Some? &&
               messageTypeHeader in properties.value.headers.value &&
               properties.value.headers.value[messageTypeHeader].ByteArray?) ==>
        r == Success(utf8(properties.value.headers.value[messageTypeHeader].bytes))
    {
      if properties.None? then Failure(MissingProperties)
      else if properties.value.headers.None? then Failure(MissingHeaders)
      else
        var headers := properties.value.headers.value;
        if messageTypeHeader !in headers || !headers[messageTypeHeader].ByteArray? then Failure(InvalidMessageType)
        else Success(utf8(headers[messageTypeHeader].bytes))
    }

    /** `Resolve`: succeeds exactly when every check passes, and then returns
        what the decoder made of the body for the resolved type. */
    function Resolve(properties: Option<BasicProperties>, body: seq<Byte>): (r: Result<Message, ParseError>)
      ensures MessageTypeName(properties).Failure? ==> r == Failure(MessageTypeName(properties).error)
      ensures MessageTypeName(properties).Success? && typeResolver(MessageTypeName(properties).value).None? ==>
        r == Failure(UnknownMessageType(MessageTypeName(properties).value))
      ensures r.Success? <==>
        MessageTypeName(properties).Success? &&
        typeResolver(MessageTypeName(properties).value).Some? &&
        decoder(body, typeResolver(MessageTypeName(properties).value).value).DecodedMessage?
      ensures r.Success? ==>
        r.value == decoder(body, typeResolver(MessageTypeName(properties).value).value).message
      ensures (r.Failure? && MessageTypeName(properties).Success? &&
               typeResolver(MessageTypeName(properties).value).Some?) ==>
        r == Failure(WrongMessageType(MessageTypeName(properties).value))
    {
      match MessageTypeName(properties)
      case Failure(e) => Failure(e)
      case Success(name) =>
        match typeResolver(name)
        case None => Failure(UnknownMessageType(name))
        case Some(dataType) =>
          match decoder(body, dataType)
          case NotAMessage => Failure(WrongMessageType(name))
          case DecodedMessage(m) => Success(m)
    }
  }

  /** The constructor with its null guards (None: a null argument). */
  function NewMessageParser(
    messageTypeHeader: string,
    utf8: seq<Byte> -> string,
    encoder: Option<(seq<Byte>, ClrType) -> Decoded>,
    typeResolver: Option<string -> Option<ClrType>>): (r: Result<MessageParser, ParseError>)
    ensures encoder.None? <==> r == Failure(NullDecoder)
    ensures encoder.Some? && typeResolver.None? <==> r == Failure(NullTypeResolver)
    ensures r.Success? <==> encoder.Some? && typeResolver.Some?
    ensures r.Success? ==>
      r.value.messageTypeHeader == messageTypeHeader && r.value.utf8 == utf8 &&
      r.value.decoder == encoder.value && r.value.typeResolver == typeResolver.value
  {
    if encoder.None? then Failure(NullDecoder)
    else if typeResolver.None? then Failure(NullTypeResolver)
    else Success(MessageParser(messageTypeHeader, utf8, typeResolver.value, encoder.value))
  }

  /** Check order, first half: when a header check fails, neither the type
      resolver nor the decoder is consulted, so replacing them changes nothing. */
  lemma HeaderFailureIgnoresResolver(
    parser: MessageParser, properties: Option<BasicProperties>, body: seq<Byte>,
    otherResolver: string -> Option<ClrType>, otherDecoder: (seq<Byte>, ClrType) -> Decoded)
    requires parser.MessageTypeName(properties).Failure?
    ensures parser.Resolve(properties, body).Failure?
    ensures parser.Resolve(properties, body) ==
      parser.(typeResolver := otherResolver, decoder := otherDecoder).Resolve(properties, body)
  {
  }

  /** Check order, second half: when the type name does not resolve, the
      decoder is not consulted, so replacing it changes nothing. */
  lemma UnresolvedTypeIgnoresDecoder(
    parser: MessageParser, properties: Option<BasicProperties>, body: seq<Byte>,
    otherDecoder: (seq<Byte>, ClrType) -> Decoded)
    requires parser.MessageTypeName(properties).Success?
    requires parser.typeResolver(parser.MessageTypeName(properties).value).None?
    ensures parser.Resolve(properties, body).Failure?
    ensures parser.Resolve(properties, body) == parser.(decoder := otherDecoder).Resolve(properties, body)
  {
  }

  /** A delivery whose headers carry the type name resolves to whatever the
      decoder produces from the body, for any body. */
  lemma WellFormedDeliveryDecodes(
    parser: MessageParser, headers: map<string, HeaderValue>, typeName: seq<Byte>,
    body: seq<Byte>, dataType: ClrType, m: Message)
    requires parser.messageTypeHeader in headers && headers[parser.messageTypeHeader] == ByteArray(typeName)
    requires parser.typeResolver(parser.utf8(typeName)) == Some(dataType)
    requires parser.decoder(body, dataType) == DecodedMessage(m)
    ensures parser.Resolve(Some(BasicProperties(Some(headers))), body) == Success(m)
  {
  }
}
