/** The instrument resource the driver talks to, reduced to the events it
    sees and the reply lines the instrument will give. */
module Transport {
  import opened Values

  /** One call on the resource: `write(cmd)` or `query(cmd)`. */
  datatype Event = Write(cmd: string) | Query(cmd: string)

  /** The resource's state: the events so far and the reply lines the
      instrument has yet to send. */
  datatype Link = Link(trace: seq<Event>, replies: seq<string>)

  /** `write(cmd)`: sends one line and expects nothing back. */
  function WriteStep(cmd: string, l: Link): (l': Link)
  {
    Link(l.trace + [Write(cmd)], l.replies)
  }

  /** `query(cmd)`: sends one line, then reads one reply line; when no line
      arrives within the timeout the read raises. */
  function QueryStep(cmd: string, l: Link): (step: (Result<string>, Link))
  {
    var sent := l.trace + [Query(cmd)];
    if l.replies == [] then (Raised(Timeout), Link(sent, []))
    else (Ok(l.replies[0]), Link(sent, l.replies[1..]))
  }

  class Resource {
    var trace: seq<Event>
    var replies: seq<string>

    constructor (replies: seq<string>)
      ensures trace == [] && this.replies == replies
    {
      trace := [];
      this.replies := replies;
    }

    function State(): (l: Link)
      reads this
    {
      Link(trace, replies)
    }

    method Write(cmd: string)
      modifies this
      ensures State() == WriteStep(cmd, old(State()))
    {
      trace := trace + [Event.Write(cmd)];
    }

    method Query(cmd: string) returns (line: Result<string>)
      modifies this
      ensures (line, State()) == QueryStep(cmd, old(State()))
    {
      trace := trace + [Event.Query(cmd)];
      if replies == [] {
        line := Raised(Timeout);
      } else {
        line := Ok(replies[0]);
        replies := replies[1..];
      }
    }
  }
}
