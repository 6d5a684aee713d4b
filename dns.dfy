/**
 The DNS messages the tool exchanges, as records rather than wire bytes:
 the header fields of section 4.1.1 of RFC 1035, the question of section
 4.1.2, and answers reduced to what the tool reads of them (owner name and
 the address already rendered as text).
 */
module Dns {

  datatype Option<T> = None | Some(value: T)

  type uint4 = x: int | 0 <= x < 0x10
  type uint16 = x: int | 0 <= x < 0x1_0000

  /** OPCODE of a standard query (RFC 1035, section 4.1.1). */
  const OpcodeQuery: uint4 := 0
  /** TYPE A, a host address (RFC 1035, section 3.2.2). */
  const TypeA: uint16 := 1
  /** CLASS IN, the Internet (RFC 1035, section 3.2.4). */
  const ClassIN: uint16 := 1
  /** Transaction ID the tool puts on every query. */
  const QueryId: uint16 := 1

  datatype Header = Header(
    id: uint16,
    qr: bool,
    opcode: uint4,
    aa: bool,
    tc: bool,
    rd: bool,
    ra: bool,
    rcode: uint4,
    qdcount: uint16,
    ancount: uint16,
    nscount: uint16,
    arcount: uint16)

  datatype Question = Question(qname: string, qtype: uint16, qclass: uint16)

  /** An answer record: its owner name and its address as text. */
  datatype Answer = Answer(name: string, ip: string)

  datatype Message = Message(header: Header, questions: seq<Question>, answers: seq<Answer>)

  /**
   A standard query (QR clear, OPCODE QUERY) asking for recursion with
   exactly one question, A/IN for `domain`, whose counts agree with its
   sections.
   */
  predicate IsRecursiveAQuery(m: Message, domain: string) {
    && !m.header.qr
    && m.header.opcode == OpcodeQuery
    && m.header.rd
    && m.header.qdcount == |m.questions| == 1
    && m.header.ancount == |m.answers| == 0
    && m.header.nscount == 0 && m.header.arcount == 0
    && m.questions[0] == Question(domain, TypeA, ClassIN)
  }

  /** The query the tool sends for `domain`. */
  function BuildQuery(domain: string): (m: Message)
    ensures IsRecursiveAQuery(m, domain)
    ensures m.header.id == QueryId
  {
    var header := Header(QueryId, false, OpcodeQuery, false, false, true, false, 0, 1, 0, 0, 0);
    Message(header, [Question(domain, TypeA, ClassIN)], [])
  }

  /** The name a query asks about, when it is a recursive A query. */
  function AskedName(m: Message): (r: Option<string>)
    ensures r.Some? ==> IsRecursiveAQuery(m, r.value)
    ensures r.None? ==> forall d :: !IsRecursiveAQuery(m, d)
  {
    if |m.questions| == 1 && IsRecursiveAQuery(m, m.questions[0].qname)
    then Some(m.questions[0].qname)
    else None
  }

  /** A query states the domain it was built for, so different domains give different queries. */
  lemma {:induction false} QueryNamesDomain(domain: string)
    ensures AskedName(BuildQuery(domain)) == Some(domain)
    ensures forall other :: other != domain ==> BuildQuery(other) != BuildQuery(domain)
  {
    assert BuildQuery(domain).questions[0].qname == domain;
  }

  /**
   What the tool reports for a reply: the owner name and address of the
   first answer when the reply decoded as DNS and holds an answer; the
   domain asked and an empty address otherwise.
   */
  function SelectAnswer(domain: string, reply: Option<Message>): (r: (string, string))
    ensures reply.Some? && reply.value.answers != [] ==>
      r == (reply.value.answers[0].name, reply.value.answers[0].ip)
    ensures (reply.None? || reply.value.answers == []) ==> r == (domain, "")
  {
    match reply
    case Some(m) => if |m.answers| > 0 then (m.answers[0].name, m.answers[0].ip) else (domain, "")
    case None => (domain, "")
  }

  /** Only the first answer matters: every later answer, and the rest of the reply, is ignored. */
  lemma FirstAnswerOnly(domain: string, m: Message, m': Message)
    requires m.answers != [] && m'.answers != [] && m.answers[0] == m'.answers[0]
    ensures SelectAnswer(domain, Some(m)) == SelectAnswer(domain, Some(m'))
    ensures SelectAnswer(domain, Some(m)) == SelectAnswer("", Some(m'))
  {
  }
}
