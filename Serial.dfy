/**
 * The serial link to the bench's microcontroller (serial_handler.py).
 *
 * `Port` stands for the driver's port object: whether it is open, what has
 * been written to it, and the lines the device has sent that have not been
 * read yet. `SerialHandler` owns at most one such port in its `connection`
 * field and guards sending, reading and closing with "connected and open".
 */
module Serial {
  import opened Text

  /**
   * What one `readline()` returns from the queue of received lines: the
   * first line, or nothing when the read timeout passes with nothing queued.
   */
  function NextLine(incoming: seq<string>): string
  {
    if incoming == [] then "" else incoming[0]
  }

  /** The lines still queued after one `readline()`. */
  function AfterLine(incoming: seq<string>): seq<string>
  {
    if incoming == [] then [] else incoming[1..]
  }

  /** Reading a line takes exactly the first queued line off the queue. */
  lemma ReadLineSplitsQueue(incoming: seq<string>)
    requires incoming != []
    ensures [NextLine(incoming)] + AfterLine(incoming) == incoming
    ensures |AfterLine(incoming)| == |incoming| - 1
  {
  }

  /**
   * How one read goes: cleanly, with the port raising in `readline()` (nothing
   * is taken off the queue), or with the line taken off the queue and its
   * bytes failing to decode.
   */
  datatype ReadFault = Clean | PortFault | DecodeFault

  class Port {
    const name: string
    const baudRate: nat
    const timeout: nat
    var isOpen: bool
    /** Every block of text written to the port, in order. */
    var written: seq<string>
    /** Lines the device has sent that have not been read. */
    var incoming: seq<string>

    /** A port that the driver has just opened. */
    constructor Open(name: string, baudRate: nat, timeout: nat)
      ensures this.name == name && this.baudRate == baudRate && this.timeout == timeout
      ensures isOpen && written == [] && incoming == []
    {
      this.name := name;
      this.baudRate := baudRate;
      this.timeout := timeout;
      isOpen := true;
      written := [];
      incoming := [];
    }

    /** The device sends lines (the environment's side of the link). */
    method Receive(lines: seq<string>)
      modifies this
      ensures incoming == old(incoming) + lines
      ensures isOpen == old(isOpen) && written == old(written)
    {
      incoming := incoming + lines;
    }

    method Write(data: string)
      requires isOpen
      modifies this
      ensures written == old(written) + [data]
      ensures isOpen && incoming == old(incoming)
    {
      written := written + [data];
    }

    method ReadLine() returns (line: string)
      requires isOpen
      modifies this
      ensures line == NextLine(old(incoming)) && incoming == AfterLine(old(incoming))
      ensures isOpen && written == old(written)
    {
      line := NextLine(incoming);
      incoming := AfterLine(incoming);
    }

    method Close()
      modifies this
      ensures !isOpen
      ensures written == old(written) && incoming == old(incoming)
    {
      isOpen := false;
    }
  }

  class SerialHandler {
    /** The port last opened, or null when there is none (never opened, or the last open failed). */
    var connection: Port?

    /** The guard of every handler operation: a port exists and it is open. */
    predicate Connected()
      reads this, connection
    {
      connection != null && connection.isOpen
    }

    constructor()
      ensures connection == null
    {
      connection := null;
    }

    /**
     * Opens `port` at `baudRate` with the given read timeout (1 by default).
     * `opens` says whether the driver managed to open it; any failure is
     * caught and leaves no connection at all.
     */
    method Connect(port: string, baudRate: nat, opens: bool, timeout: nat := 1)
      modifies this
      ensures opens ==> connection != null && fresh(connection) && Connected()
      ensures opens ==> connection.name == port && connection.baudRate == baudRate && connection.timeout == timeout
      ensures opens ==> connection.written == [] && connection.incoming == []
      ensures !opens ==> connection == null
    {
      if opens {
        connection := new Port.Open(port, baudRate, timeout);
      } else {
        connection := null;
      }
    }

    /**
     * Writes `command` followed by a newline when connected and open.
     * A write fault (`writeFault`) is caught and writes nothing; when not
     * connected nothing is written either. The connection itself never changes.
     */
    method SendCommand(command: string, writeFault: bool)
      modifies connection
      ensures connection == old(connection)
      ensures connection != null ==> connection.isOpen == old(connection.isOpen)
                                     && connection.incoming == old(connection.incoming)
      ensures connection != null ==>
                connection.written == if old(Connected()) && !writeFault
                                      then old(connection.written) + [command + "\n"]
                                      else old(connection.written)
    {
      if connection != null && connection.isOpen {
        if !writeFault {
          connection.Write(command + "\n");
        }
      }
    }

    /**
     * Reads one line when connected and open and returns it without
     * surrounding whitespace. When not connected it returns "" and consumes
     * nothing. Any exception is caught and gives "": one raised by the port
     * consumes nothing, while a line that fails to decode has already been
     * taken off the queue. The connection itself never changes.
     */
    method ReadData(readFault: ReadFault) returns (data: string)
      modifies connection
      ensures Trimmed(data)
      ensures connection == old(connection)
      ensures connection != null ==> connection.isOpen == old(connection.isOpen)
                                     && connection.written == old(connection.written)
      ensures old(Connected()) && readFault == Clean ==>
                data == Strip(NextLine(old(connection.incoming)))
                && connection.incoming == AfterLine(old(connection.incoming))
      ensures old(Connected()) && readFault == DecodeFault ==>
                data == "" && connection.incoming == AfterLine(old(connection.incoming))
      ensures !old(Connected()) || readFault == PortFault ==>
                data == "" && (connection != null ==> connection.incoming == old(connection.incoming))
    {
      if connection != null && connection.isOpen {
        if readFault == PortFault {
          data := "";
        } else {
          var line := connection.ReadLine();
          if readFault == DecodeFault {
            data := "";
          } else {
            data := Strip(line);
          }
        }
      } else {
        data := "";
      }
    }

    /** Closes the port when it is open; otherwise has no effect. The port stays referenced. */
    method Close()
      modifies connection
      ensures connection == old(connection)
      ensures connection != null ==> !connection.isOpen
                                     && connection.written == old(connection.written)
                                     && connection.incoming == old(connection.incoming)
    {
      if connection != null && connection.isOpen {
        connection.Close();
      }
    }
  }
}
