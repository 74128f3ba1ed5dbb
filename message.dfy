/**
 * An immutable e-mail message: a sender, the main, carbon-copy and
 * blind-carbon-copy recipients, a subject and a plain-text body, built by a
 * constructor that rejects a message nobody could send and normalises the
 * optional parts.
 *
 * The endpoint type is a parameter `E` and its validity a predicate passed
 * in, since the endpoint's own rules are not part of this model; likewise
 * the character class that counts as white space. A null array or string is
 * `None`.
 */
module Messages {
  import opened Wrappers

  datatype Message<E> = Message(
    from: E,
    to: Option<seq<E>>,
    cc: Option<seq<E>>,
    bcc: Option<seq<E>>,
    subject: Option<string>,
    body: Option<string>)
  {
    /** A message can be sent when its sender is valid and it has at least one
        main recipient. */
    predicate IsValid(endPointValid: E -> bool)
    {
      endPointValid(from) && to.Some? && |to.value| > 0
    }
  }

  datatype MessageError = InvalidFrom | MissingTo
  {
    /** The text of the exception the constructor throws. */
    function Message(): string
    {
      match this
      case InvalidFrom => "Invalid 'from' information."
      case MissingTo => "Missing 'to' information."
    }
  }

  /** The two exception texts tell the two failures apart. */
  lemma ErrorTextsDistinct(a: MessageError, b: MessageError)
    ensures a.Message() == b.Message() <==> a == b
  {
    assert InvalidFrom.Message()[0] != MissingTo.Message()[0];
  }

  /** Null, or made of white-space characters only (the empty string included). */
  predicate IsNullOrWhiteSpace(s: Option<string>, isWhiteSpace: char -> bool)
  {
    s.None? || forall i :: 0 <= i < |s.value| ==> isWhiteSpace(s.value[i])
  }

  /** No optional part of the message is present but empty or blank. */
  predicate Normalized<E>(m: Message<E>, isWhiteSpace: char -> bool)
  {
    && (m.cc.Some? ==> |m.cc.value| > 0)
    && (m.bcc.Some? ==> |m.bcc.value| > 0)
    && (m.subject.Some? ==> !IsNullOrWhiteSpace(m.subject, isWhiteSpace))
    && (m.body.Some? ==> !IsNullOrWhiteSpace(m.body, isWhiteSpace))
  }

  /** An empty recipient list is dropped; any other is kept as given. */
  function DropEmpty<E>(list: Option<seq<E>>): (r: Option<seq<E>>)
    ensures r.Some? ==> |r.value| > 0
    ensures r == list || (list.Some? && |list.value| == 0 && r.None?)
  {
    if list.Some? && |list.value| == 0 then None else list
  }

  /** A blank text is dropped; any other is kept as given. */
  function DropBlank(text: Option<string>, isWhiteSpace: char -> bool): (r: Option<string>)
    ensures r.Some? ==> !IsNullOrWhiteSpace(r, isWhiteSpace)
    ensures r == text || (IsNullOrWhiteSpace(text, isWhiteSpace) && r.None?)
  {
    if IsNullOrWhiteSpace(text, isWhiteSpace) then None else text
  }

  /**
   * What the constructor produces: it fails on an invalid sender first, then
   * on a null or empty `to`; otherwise the message keeps the sender and the
   * main recipients as given, and every optional part as given unless that
   * part is empty or blank, in which case it is dropped. The constructor
   * succeeds exactly on the arguments that make a valid message.
   */
  function Construct<E>(from: E, to: Option<seq<E>>, cc: Option<seq<E>>, bcc: Option<seq<E>>,
                        subject: Option<string>, body: Option<string>,
                        endPointValid: E -> bool, isWhiteSpace: char -> bool): (r: Result<Message<E>, MessageError>)
    ensures !endPointValid(from) ==> r == Err(InvalidFrom)
    ensures endPointValid(from) && (to.None? || |to.value| == 0) ==> r == Err(MissingTo)
    ensures r.Ok? <==> Message(from, to, cc, bcc, subject, body).IsValid(endPointValid)
    ensures r.Ok? ==> r.value.IsValid(endPointValid) && Normalized(r.value, isWhiteSpace)
    ensures r.Ok? ==> r.value.from == from && r.value.to == to
    ensures r.Ok? ==> (r.value.cc == cc || (cc.Some? && |cc.value| == 0 && r.value.cc.None?))
    ensures r.Ok? ==> (r.value.bcc == bcc || (bcc.Some? && |bcc.value| == 0 && r.value.bcc.None?))
    ensures r.Ok? ==> (r.value.subject == subject || (IsNullOrWhiteSpace(subject, isWhiteSpace) && r.value.subject.None?))
    ensures r.Ok? ==> (r.value.body == body || (IsNullOrWhiteSpace(body, isWhiteSpace) && r.value.body.None?))
  {
    if !endPointValid(from) then Err(InvalidFrom)
    else if to.None? || |to.value| == 0 then Err(MissingTo)
    else Ok(Message(from, to, DropEmpty(cc), DropEmpty(bcc), DropBlank(subject, isWhiteSpace), DropBlank(body, isWhiteSpace)))
  }

  /**
   * The constructor, step by step: the checks, then the optional parameters
   * overwritten where they are empty or blank, then the fields assigned.
   */
  method NewMessage<E>(from: E, to: Option<seq<E>>, cc: Option<seq<E>>, bcc: Option<seq<E>>,
                       subject: Option<string>, body: Option<string>,
                       endPointValid: E -> bool, isWhiteSpace: char -> bool)
    returns (r: Result<Message<E>, MessageError>)
    ensures r == Construct(from, to, cc, bcc, subject, body, endPointValid, isWhiteSpace)
  {
    if endPointValid(from) == false {
      return Err(InvalidFrom);
    }
    if to.None? || |to.value| == 0 {
      return Err(MissingTo);
    }
    var cc, bcc, subject, body := cc, bcc, subject, body;
    if cc.Some? && |cc.value| == 0 {
      cc := None;
    }
    if bcc.Some? && |bcc.value| == 0 {
      bcc := None;
    }
    if IsNullOrWhiteSpace(subject, isWhiteSpace) {
      subject := None;
    }
    if IsNullOrWhiteSpace(body, isWhiteSpace) {
      body := None;
    }
    r := Ok(Message(from, to, cc, bcc, subject, body));
  }

  /** The messages the constructor produces are exactly the valid, normalised
      ones, and each is rebuilt unchanged from its own fields. */
  lemma ConstructFixpoint<E>(m: Message<E>, endPointValid: E -> bool, isWhiteSpace: char -> bool)
    ensures Construct(m.from, m.to, m.cc, m.bcc, m.subject, m.body, endPointValid, isWhiteSpace) == Ok(m)
            <==> m.IsValid(endPointValid) && Normalized(m, isWhiteSpace)
  {
  }

  /** Building a message from a built message's fields changes nothing. */
  lemma ConstructIdempotent<E>(from: E, to: Option<seq<E>>, cc: Option<seq<E>>, bcc: Option<seq<E>>,
                               subject: Option<string>, body: Option<string>,
                               endPointValid: E -> bool, isWhiteSpace: char -> bool)
    ensures var r := Construct(from, to, cc, bcc, subject, body, endPointValid, isWhiteSpace);
            r.Ok? ==> Construct(r.value.from, r.value.to, r.value.cc, r.value.bcc, r.value.subject, r.value.body,
                                endPointValid, isWhiteSpace) == r
  {
    var r := Construct(from, to, cc, bcc, subject, body, endPointValid, isWhiteSpace);
    if r.Ok? {
      ConstructFixpoint(r.value, endPointValid, isWhiteSpace);
    }
  }
}
