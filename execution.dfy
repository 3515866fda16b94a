/**
 * The execution channel the builder hands its compiled statements to (`this._builder.query`).
 * The model records every statement it receives and answers with a supplied reply; the MySQL
 * connection behind it is not part of this model.
 */
module Execution {
  import opened SqlText

  /** One compiled statement: SQL text and its positional parameters. */
  datatype Statement = Statement(sql: string, params: seq<Value>)

  /** What the channel passes to the callback: data on success, or an error. */
  datatype Reply = Answer(data: Data) | Failure(message: string)

  class Channel {
    /** The reply to the k-th statement received (counting from 0). */
    const respond: (nat, Statement) -> Reply
    /** Every statement received so far, oldest first. */
    var log: seq<Statement>

    constructor (respond: (nat, Statement) -> Reply)
      ensures this.respond == respond && log == []
    {
      this.respond := respond;
      log := [];
    }

    method Query(sql: string, params: seq<Value>) returns (reply: Reply)
      modifies this
      ensures log == old(log) + [Statement(sql, params)]
      ensures reply == respond(|old(log)|, Statement(sql, params))
    {
      reply := respond(|log|, Statement(sql, params));
      log := log + [Statement(sql, params)];
    }
  }
}
