/**
 * Vedeu::Read: a fake input device holding one piece of data. Each reader
 * may replace the data and then returns it, with `nil` read as "".
 */
module Reading {
  import opened Common
  import opened RubyString

  /** The console is stored and never consulted, so its type is left open. */
  class Read<C> {
    const console: C
    var data: Option<string>

    constructor (console: C, data: Option<string> := None)
      ensures this.console == console && this.data == data
    {
      this.console := console;
      this.data := data;
    }

    /** `read`: the data, or "" when there is none. */
    function Read(): (r: string)
      reads this
      ensures data.None? ==> r == ""
      ensures data.Some? ==> r == data.value
    {
      if data.Some? then data.value else ""
    }

    /** `getch(string = nil)`: keeps only the first character of a given string; "" leaves `nil`. */
    method Getch(s: Option<string> := None) returns (r: string)
      modifies this`data
      ensures s.Some? ==> data == First(s.value)
      ensures s.None? ==> data == old(data)
      ensures r == Read()
    {
      if s.Some? {
        data := First(s.value);
      }
      r := Read();
    }

    /** `gets(string = nil)`: keeps a given string without its trailing line terminator. */
    method Gets(s: Option<string> := None) returns (r: string)
      modifies this`data
      ensures s.Some? ==> data == Some(Chomp(s.value))
      ensures s.None? ==> data == old(data)
      ensures r == Read()
    {
      if s.Some? {
        data := Some(Chomp(s.value));
      }
      r := Read();
    }

    /** `read_nonblock(bytes = 1, string = nil)`: the byte count is ignored. */
    method ReadNonblock(bytes: int := 1, s: Option<string> := None) returns (r: string)
      modifies this`data
      ensures s.Some? ==> data == s
      ensures s.None? ==> data == old(data)
      ensures r == Read()
    {
      if s.Some? {
        data := s;
      }
      r := Read();
    }

    /** `Read.from(console, data = nil)`: the data as `read` returns it. */
    static method From(console: C, d: Option<string> := None) returns (r: string)
      ensures d.Some? ==> r == d.value
      ensures d.None? ==> r == ""
    {
      var device := new Read(console, d);
      r := device.Read();
    }
  }

  /** `getch("abc")` reads "a"; a later `getch("")` stores `nil`, so every read after it gives "". */
  method GetchKeepsOneCharacter() returns (a: string, b: string, c: string)
    ensures a == "a" && b == "" && c == ""
  {
    var device := new Read(0, None);
    a := device.Getch(Some("abc"));
    b := device.Getch(Some(""));
    c := device.Gets();
  }

  /** `gets("yes\n")` reads "yes"; `gets()` then reads the same again. */
  method GetsChomps() returns (a: string, b: string)
    ensures a == "yes" && b == "yes"
  {
    var device := new Read(0, None);
    a := device.Gets(Some("yes\n"));
    b := device.Gets();
  }

  /** The byte count of `read_nonblock` makes no difference. */
  method ReadNonblockIgnoresBytes(s: Option<string>) returns (a: string, b: string)
    ensures a == b
    ensures s.Some? ==> a == s.value
  {
    var one := new Read(0, Some("x"));
    var many := new Read(0, Some("x"));
    a := one.ReadNonblock(1, s);
    b := many.ReadNonblock(1024, s);
  }
}
