/**
 * The few pieces of the DNS message library that the plugin touches:
 * record headers, the three record kinds it emits, questions, requests
 * and the reply message whose answer section the resolvers append to.
 */
module Dns {
  /** Record type codes (section 3.2.2 of RFC 1035, section 2.1 of RFC 3596). */
  const TypeA: nat := 1
  const TypeCNAME: nat := 5
  const TypeAAAA: nat := 28

  /** The Internet class (section 3.2.4 of RFC 1035). */
  const ClassINET: nat := 1

  /** Response code "no error" (section 4.1.1 of RFC 1035). */
  const RcodeSuccess: int := 0

  datatype Header = Header(name: string, rrtype: nat, rrclass: nat, ttl: nat)

  /** Addresses are kept as the text the directory holds; parsing is not modelled. */
  datatype RR =
    | A(hdr: Header, a: string)
    | AAAA(hdr: Header, aaaa: string)
    | CNAME(hdr: Header, target: string)

  datatype Question = Question(name: string, qtype: nat)

  datatype Request = Request(id: nat, question: seq<Question>)

  /** The reply as it is handed to the response writer. */
  datatype Reply = Reply(id: nat, question: seq<Question>, authoritative: bool, answer: seq<RR>)

  /** The reply message under construction; the resolvers append to `answer`. */
  class Msg {
    var id: nat
    var question: seq<Question>
    var authoritative: bool
    var answer: seq<RR>

    constructor ()
      ensures id == 0 && question == [] && !authoritative && answer == []
    {
      id := 0;
      question := [];
      authoritative := false;
      answer := [];
    }

    /** Makes this message a reply to `r`: same id, the first question copied. */
    method SetReply(r: Request)
      modifies this`id, this`question
      ensures id == r.id
      ensures question == if |r.question| > 0 then [r.question[0]] else []
    {
      id := r.id;
      question := if |r.question| > 0 then [r.question[0]] else [];
    }
  }
}
