/** A sandbox instance (`lua_sandbox`): its usage counters, its output
    buffer, teardown, and the script-facing `output()` entry point that
    writes script values into the buffer. */
module SandboxCore {
  import opened Common
  import opened Memory
  import opened OutputBuffer

  datatype State = Unknown | Running | Terminated

  /** What an external serialiser (`serialize_double`,
      `serialize_kvp_as_json`, `output_circular_buffer`) does when asked to
      write one value: write these bytes through the buffer, or fail on its
      own, possibly leaving a diagnostic in the error slot ("" for none). */
  datatype Encoding = Encoded(bytes: seq<byte>) | EncodeFailed(diagnostic: string)

  /** An argument of `output()` as the dispatcher classifies it by type. A
      value whose encoding is external carries that serialiser's outcome. */
  datatype Arg =
    | Nil
    | Boolean(b: bool)
    | Number(double: Encoding)
    | Str(s: seq<byte>)
    | Table(json: Encoding)
    | CircularBuffer(encoding: Encoding)
    | OtherUserdata
    | Unsupported  // function, thread, light userdata

  const NIL_TEXT: seq<byte> := [0x6e, 0x69, 0x6c]           // "nil"
  const TRUE_TEXT: seq<byte> := [0x74, 0x72, 0x75, 0x65]    // "true"
  const FALSE_TEXT: seq<byte> := [0x66, 0x61, 0x6c, 0x73, 0x65]  // "false"
  const NEWLINE: byte := 0x0a

  const NO_ARGUMENT := "output() must have at least one argument"
  const OUTPUT_LIMIT := "output_limit exceeded"
  const JSON_OUT_OF_MEMORY := "json table serialization out of memory"

  /** Arguments the dispatcher passes over without writing or failing. */
  predicate Skipped(a: Arg) { a.OtherUserdata? || a.Unsupported? }

  /** The bytes an external serialiser adds when it succeeds. */
  function Written(e: Encoding): seq<byte>
  {
    match e
    case Encoded(bytes) => UpToNul(bytes, 0)
    case EncodeFailed(_) => []
  }

  /** The bytes one argument adds to the buffer when it is written
      successfully; nothing is added between arguments. */
  function Render(a: Arg): (r: seq<byte>)
    ensures 0 !in r
    ensures Skipped(a) ==> r == []
    ensures a.Table? ==> |r| > 0 && r[|r| - 1] == NEWLINE
  {
    match a
    case Nil => NIL_TEXT
    case Boolean(b) => if b then TRUE_TEXT else FALSE_TEXT
    case Number(e) => Written(e)
    case Str(s) => UpToNul(s, 0)
    case Table(e) => Written(e) + [NEWLINE]
    case CircularBuffer(e) => Written(e)
    case OtherUserdata => []
    case Unsupported => []
  }

  /** What the error slot may hold after one argument is dispatched, given
      what it held before: the slot is kept, or, for a table only, the
      reference set could not be allocated or the JSON serialiser left its
      non-empty diagnostic. The number and circular-buffer serialisers are
      not handed the sandbox and cannot reach the slot. */
  predicate SlotAfter(a: Arg, before: string, after: string)
  {
    || after == before
    || (a.Table? && after == JSON_OUT_OF_MEMORY)
    || (a.Table? && a.json.EncodeFailed? && a.json.diagnostic != "" && after == a.json.diagnostic)
  }

  /** The message `output()` raises for a failure, given the error slot. */
  function Reported(slot: string): string
  {
    if slot == "" then OUTPUT_LIMIT else slot
  }

  /** The bytes a successful `output(args...)` call adds, in argument order. */
  function Emitted(args: seq<Arg>): (r: seq<byte>)
    ensures 0 !in r
  {
    if |args| == 0 then [] else Emitted(args[..|args| - 1]) + Render(args[|args| - 1])
  }

  /** One more argument adds exactly its own rendering. */
  lemma EmittedStep(args: seq<Arg>, i: nat)
    requires i < |args|
    ensures Emitted(args[..i + 1]) == Emitted(args[..i]) + Render(args[i])
  {
    assert args[..i + 1][..i] == args[..i];
  }

  /** Bookkeeping for the dispatch loop: contents that sat between `before`
      and `before + r` sit between `start + done` and `start + (done + r)`. */
  lemma PrefixAfter(start: seq<byte>, done: seq<byte>, r: seq<byte>, before: seq<byte>, after: seq<byte>)
    requires before == start + done
    ensures after == before + r ==> after == start + (done + r)
    ensures before <= after <= before + r ==> start + done <= after <= start + (done + r)
  {
  }

  /** What a write that stops at argument `k` leaves behind: every earlier
      argument in full, then a prefix of the rendering of `k` itself, an
      argument that is not silently skipped. */
  predicate StoppedAt(args: seq<Arg>, k: nat, before: seq<byte>, after: seq<byte>)
  {
    && k < |args| && !Skipped(args[k])
    && before + Emitted(args[..k]) <= after <= before + Emitted(args[..k + 1])
  }

  /** One step of the dispatch loop, on contents: a complete rendering of
      argument `i` extends the emitted prefix by that argument, and a partial
      one leaves the write stopped at `i`. */
  lemma DispatchStep(args: seq<Arg>, i: nat, start: seq<byte>, before: seq<byte>, after: seq<byte>)
    requires i < |args| && before == start + Emitted(args[..i])
    ensures after == before + Render(args[i]) ==> after == start + Emitted(args[..i + 1])
    ensures !Skipped(args[i]) && before <= after <= before + Render(args[i]) ==> StoppedAt(args, i, start, after)
  {
    EmittedStep(args, i);
    PrefixAfter(start, Emitted(args[..i]), Render(args[i]), before, after);
  }

  /** Emitting two argument lists one after the other writes the same bytes
      as emitting them in one call: the dispatcher adds no separators. */
  lemma {:induction false} EmittedConcat(a: seq<Arg>, b: seq<Arg>)
    ensures Emitted(a + b) == Emitted(a) + Emitted(b)
    decreases |b|
  {
    if |b| > 0 {
      var b' := b[..|b| - 1];
      assert (a + b)[..|a + b| - 1] == a + b';
      EmittedConcat(a, b');
    } else {
      assert a + b == a;
    }
  }

  /** `output(nil, true, 42, "x")`: "nil", then "true", then the numeric
      serialiser's text, then "x", with nothing in between. */
  lemma EmittedExample(number: seq<byte>)
    requires 0 !in number
    ensures Emitted([Nil, Boolean(true), Number(Encoded(number)), Str([0x78])])
      == NIL_TEXT + TRUE_TEXT + number + [0x78]
  {
    UpToNulOfNulFree(number, 0);
    UpToNulOfNulFree([0x78 as byte], 0);
    var args := [Nil, Boolean(true), Number(Encoded(number)), Str([0x78])];
    assert args[..1][..0] == [];
    assert Emitted(args[..1]) == NIL_TEXT;
    assert args[..2][..1] == args[..1];
    assert Emitted(args[..2]) == NIL_TEXT + TRUE_TEXT;
    assert args[..3][..2] == args[..2];
    assert Emitted(args[..3]) == NIL_TEXT + TRUE_TEXT + number;
    assert args[..3] == args[..|args| - 1];
  }

  class Sandbox {
    var memory: Usage
    var outputUsage: Usage
    var state: State
    var engineOpen: bool  // the source's `lsb->lua != NULL`
    var requirePath: Option<string>
    var errorMessage: string
    const output: Buffer

    /** The output buffer is well formed and the output usage row carries
        its ceiling. */
    ghost predicate Valid()
      reads this, output
    {
      output.Valid() && outputUsage.limit == output.maxsize
    }

    /** A running instance with empty counters and an empty output buffer,
        as the host provisions it. */
    constructor (memoryLimit: nat, outputSize: nat, outputLimit: nat, requirePath: Option<string>)
      requires 0 < outputSize && (outputLimit > 0 ==> outputSize <= outputLimit)
      ensures Valid() && fresh(output) && fresh(output.data)
      ensures memory == Usage(0, 0, memoryLimit) && outputUsage == Usage(0, 0, outputLimit)
      ensures state == Running && engineOpen && this.requirePath == requirePath && errorMessage == ""
      ensures output.Contents() == [] && output.maxsize == outputLimit
    {
      memory := Usage(0, 0, memoryLimit);
      outputUsage := Usage(0, 0, outputLimit);
      state := Running;
      engineOpen := true;
      this.requirePath := requirePath;
      errorMessage := "";
      output := new Buffer(outputSize, outputLimit);
    }

    /** `memory_manager`: the allocator the engine calls for every
        allocation, resize and free. The old size is part of the current
        total, as the engine's allocator interface guarantees. */
    method MemoryManager(osize: nat, nsize: nat) returns (r: AllocResult)
      requires osize <= memory.current
      modifies this`memory
      ensures (memory, r) == Allocate(old(memory), osize, nsize, r != Refused)
      ensures nsize == 0 ==> r == Freed && memory == old(memory).(current := old(memory.current) - osize)
      ensures nsize > 0 && memory.limit > 0 && Proposed(old(memory), osize, nsize) > memory.limit ==> r == Refused
      ensures r == Refused ==> memory == old(memory)
      ensures r == Granted ==>
        && memory.current == Proposed(old(memory), osize, nsize)
        && memory.peak == Max(old(memory.peak), memory.current)
        && memory.limit == old(memory.limit)
        && WithinLimit(memory)
    {
      if nsize == 0 {
        // free(ptr)
        memory := memory.(current := memory.current - osize);
        r := Freed;
      } else {
        var newState := memory.current + nsize - osize;
        r := Refused;
        if memory.limit == 0 || newState <= memory.limit {
          var hostOk: bool :| true;  // whether realloc returns a block
          if hostOk {
            memory := memory.(current := newState);
            if memory.current > memory.peak {
              memory := memory.(peak := memory.current);
            }
            r := Granted;
          }
        }
      }
    }

    /** `sandbox_terminate`: close the engine, zero the memory counter and
        enter the terminal state; nothing else changes. */
    method Terminate()
      modifies this`engineOpen, this`memory, this`state
      ensures !engineOpen && state == Terminated
      ensures memory == old(memory).(current := 0)
    {
      if engineOpen {
        engineOpen := false;  // lua_close
      }
      memory := memory.(current := 0);
      state := Terminated;
    }

    /** `update_output_stats`: the output counter follows the write position
        and the peak records the largest position seen. */
    method UpdateOutputStats()
      requires Valid()
      modifies this`outputUsage
      ensures Valid()
      ensures outputUsage == old(outputUsage).(current := output.pos, peak := Max(old(outputUsage.peak), output.pos))
      ensures outputUsage.current <= outputUsage.peak && old(outputUsage.peak) <= outputUsage.peak
    {
      outputUsage := outputUsage.(current := output.pos);
      if outputUsage.current > outputUsage.peak {
        outputUsage := outputUsage.(peak := outputUsage.current);
      }
    }

    /** Hand one value to an external serialiser that writes through
        `appends`. When the serialiser is handed the sandbox (`canReport`),
        its failure may leave a diagnostic in the error slot. */
    method Delegate(e: Encoding, canReport: bool) returns (ok: bool)
      requires Valid()
      modifies this`errorMessage, output, output.data
      ensures Valid() && (output.data == old(output.data) || fresh(output.data))
      ensures output.maxsize == old(output.maxsize) && old(output.size) <= output.size
      ensures ok ==> e.Encoded? && output.Contents() == old(output.Contents()) + Written(e) && output.Terminated()
      ensures !ok ==> output.Contents() == old(output.Contents())
      ensures ok ==> errorMessage == old(errorMessage)
      ensures errorMessage == old(errorMessage) || (canReport && e.EncodeFailed? && e.diagnostic != "" && errorMessage == e.diagnostic)
    {
      match e
      case Encoded(bytes) =>
        ok := Put(bytes);
      case EncodeFailed(diagnostic) =>
        if canReport && diagnostic != "" {
          errorMessage := diagnostic;
        }
        ok := false;
    }

    /** `appendf(&lsb->output, "%s", s)` seen from the dispatcher: on
        success the C string is added and terminated; a failure adds
        nothing to the contents. */
    method Format(s: seq<byte>) returns (ok: bool)
      requires Valid()
      modifies output, output.data
      ensures Valid() && (output.data == old(output.data) || fresh(output.data))
      ensures output.maxsize == old(output.maxsize) && old(output.size) <= output.size
      ensures ok ==> output.Contents() == old(output.Contents()) + UpToNul(s, 0) && output.Terminated()
      ensures !ok ==> output.Contents() == old(output.Contents())
    {
      var st := output.AppendFormatted(s);
      ok := st == Success;
    }

    /** `appends(&lsb->output, s)` seen from the dispatcher. */
    method Put(s: seq<byte>) returns (ok: bool)
      requires Valid()
      modifies output, output.data
      ensures Valid() && (output.data == old(output.data) || fresh(output.data))
      ensures output.maxsize == old(output.maxsize) && old(output.size) <= output.size
      ensures ok ==> output.Contents() == old(output.Contents()) + UpToNul(s, 0) && output.Terminated()
      ensures !ok ==> output.Contents() == old(output.Contents())
    {
      var st := output.Appends(s);
      ok := st == Success;
    }

    /** The table case of `output()`: allocate the table-reference set,
        let the JSON serialiser write the document, then end it with a
        newline. */
    method EmitTable(e: Encoding) returns (ok: bool)
      requires Valid()
      modifies this`errorMessage, output, output.data
      ensures Valid() && (output.data == old(output.data) || fresh(output.data))
      ensures output.maxsize == old(output.maxsize) && old(output.size) <= output.size
      ensures ok ==> output.Contents() == old(output.Contents()) + Written(e) + [NEWLINE] && output.Terminated()
      ensures !ok ==>
        || output.Contents() == old(output.Contents())
        || output.Contents() == old(output.Contents()) + Written(e)
      ensures ok ==> errorMessage == old(errorMessage)
      ensures !ok && output.Contents() != old(output.Contents()) ==> errorMessage == old(errorMessage)
      ensures SlotAfter(Table(e), old(errorMessage), errorMessage)
    {
      var refsOk: bool :| true;  // whether malloc of the reference set succeeds
      if !refsOk {
        errorMessage := JSON_OUT_OF_MEMORY;
        return false;
      }
      ok := Delegate(e, true);  // serialize_kvp_as_json(lsb, ...)
      if ok {
        var st := output.Appendc(NEWLINE);
        ok := st == Success;
      }
    }

    /** The `nil`, boolean and string cases of the dispatch `switch`. */
    method EmitText(a: Arg) returns (ok: bool)
      requires Valid() && (a.Nil? || a.Boolean? || a.Str?)
      modifies output, output.data
      ensures Valid() && (output.data == old(output.data) || fresh(output.data))
      ensures output.maxsize == old(output.maxsize) && old(output.size) <= output.size
      ensures ok ==> output.Contents() == old(output.Contents()) + Render(a) && output.Terminated()
      ensures !ok ==> output.Contents() == old(output.Contents())
    {
      match a
      case Str(s) =>
        ok := Format(s);
      case Nil =>
        ok := Put(NIL_TEXT);
        UpToNulOfNulFree(NIL_TEXT, 0);
      case Boolean(b) =>
        var text := if b then TRUE_TEXT else FALSE_TEXT;
        ok := Format(text);
        UpToNulOfNulFree(text, 0);
    }

    /** The number, table and circular-buffer cases of the dispatch
        `switch`, each handed to an external serialiser. */
    method EmitEncoded(a: Arg) returns (ok: bool)
      requires Valid() && (a.Number? || a.Table? || a.CircularBuffer?)
      modifies this`errorMessage, output, output.data
      ensures Valid() && (output.data == old(output.data) || fresh(output.data))
      ensures output.maxsize == old(output.maxsize) && old(output.size) <= output.size
      ensures ok ==> output.Contents() == old(output.Contents()) + Render(a) && output.Terminated()
      ensures !ok ==> old(output.Contents()) <= output.Contents() <= old(output.Contents()) + Render(a)
      ensures ok ==> errorMessage == old(errorMessage)
      ensures !ok && output.Contents() != old(output.Contents()) ==> errorMessage == old(errorMessage)
      ensures SlotAfter(a, old(errorMessage), errorMessage)
    {
      match a
      case Number(e) =>
        ok := Delegate(e, false);  // serialize_double(&lsb->output, ...)
      case Table(e) =>
        ok := EmitTable(e);
      case CircularBuffer(e) =>
        ok := Delegate(e, false);  // output_circular_buffer(lua, cb, &lsb->output)
    }

    /** One pass of the dispatch `switch` of `output()`. On failure the
        buffer holds a prefix of what a success would have written. */
    method EmitOne(a: Arg) returns (ok: bool)
      requires Valid()
      modifies this`errorMessage, output, output.data
      ensures Valid() && (output.data == old(output.data) || fresh(output.data))
      ensures output.maxsize == old(output.maxsize) && old(output.size) <= output.size
      ensures ok ==> output.Contents() == old(output.Contents()) + Render(a)
      ensures ok && !Skipped(a) ==> output.Terminated()
      ensures ok && Skipped(a) ==> unchanged(output) && unchanged(output.data)
      ensures !ok ==>
        && !Skipped(a)
        && old(output.Contents()) <= output.Contents() <= old(output.Contents()) + Render(a)
      ensures ok ==> errorMessage == old(errorMessage)
      ensures !ok && output.Contents() != old(output.Contents()) ==> errorMessage == old(errorMessage)
      ensures SlotAfter(a, old(errorMessage), errorMessage)
    {
      if Skipped(a) {
        ok := true;  // other userdata and the remaining types write nothing
      } else if a.Nil? || a.Boolean? || a.Str? {
        ok := EmitText(a);
      } else {
        ok := EmitEncoded(a);
      }
    }

    /** One turn of the argument loop: argument `i` follows the `i` already
        written after `start`, in full or, on failure, cut short. */
    method EmitNext(args: seq<Arg>, i: nat, ghost start: seq<byte>) returns (ok: bool)
      requires Valid() && i < |args| && output.Contents() == start + Emitted(args[..i])
      modifies this`errorMessage, output, output.data
      ensures Valid() && (output.data == old(output.data) || fresh(output.data))
      ensures output.maxsize == old(output.maxsize) && old(output.size) <= output.size
      ensures ok ==> output.Contents() == start + Emitted(args[..i + 1]) && errorMessage == old(errorMessage)
      ensures ok && old(output.Terminated()) ==> output.Terminated()
      ensures !ok ==> StoppedAt(args, i, start, output.Contents()) && SlotAfter(args[i], old(errorMessage), errorMessage)
      ensures !ok && output.Contents() != start + Emitted(args[..i]) ==> errorMessage == old(errorMessage)
    {
      ghost var before := output.Contents();
      ok := EmitOne(args[i]);
      DispatchStep(args, i, start, before, output.Contents());
    }

    /** The argument loop of `output()`: dispatch each argument in order
        while no earlier one has failed. */
    method Dispatch(args: seq<Arg>) returns (failed: bool, ghost failedAt: nat)
      requires Valid()
      modifies this`errorMessage, output, output.data
      ensures Valid()
      ensures output.maxsize == old(output.maxsize) && old(output.size) <= output.size
      ensures !failed ==> output.Contents() == old(output.Contents()) + Emitted(args)
      ensures !failed && old(output.Terminated()) ==> output.Terminated()
      ensures !failed ==> errorMessage == old(errorMessage)
      ensures failed ==>
        && StoppedAt(args, failedAt, old(output.Contents()), output.Contents())
        && SlotAfter(args[failedAt], old(errorMessage), errorMessage)
      ensures failed && output.Contents() != old(output.Contents()) + Emitted(args[..failedAt]) ==>
        errorMessage == old(errorMessage)
    {
      ghost var start := output.Contents();
      var i := 0;
      while i < |args|
        invariant 0 <= i <= |args|
        invariant Valid() && (output.data == old(output.data) || fresh(output.data))
        invariant output.Contents() == start + Emitted(args[..i])
        invariant old(output.Terminated()) ==> output.Terminated()
        invariant output.maxsize == old(output.maxsize) && old(output.size) <= output.size
        invariant errorMessage == old(errorMessage)
      {
        var ok := EmitNext(args, i, start);
        if !ok {
          return true, i;  // the loop guard `result == 0` ends the loop
        }
        i := i + 1;
      }
      failed, failedAt := false, 0;
      assert args[..|args|] == args;
    }

    /** `output(args...)`: reject an empty argument list, write the
        arguments in order up to the first failure, refresh the output
        counters, then report the failure with the message left in the
        error slot or, when there is none, "output_limit exceeded". */
    method Output(args: seq<Arg>) returns (err: Option<string>, ghost failedAt: nat)
      requires Valid()
      modifies this`errorMessage, this`outputUsage, output, output.data
      ensures Valid()
      ensures output.maxsize == old(output.maxsize) && old(output.size) <= output.size
      ensures |args| == 0 ==> err == Some(NO_ARGUMENT) && unchanged(this) && unchanged(output) && unchanged(output.data)
      ensures |args| > 0 ==> outputUsage == old(outputUsage).(current := output.pos, peak := Max(old(outputUsage.peak), output.pos))
      ensures err == None ==> output.Contents() == old(output.Contents()) + Emitted(args)
      ensures err == None && old(output.Terminated()) ==> output.Terminated()
      ensures |args| > 0 && err.Some? ==>
        && StoppedAt(args, failedAt, old(output.Contents()), output.Contents())
        && SlotAfter(args[failedAt], old(errorMessage), errorMessage)
        && err.value == Reported(errorMessage)
      ensures |args| > 0 && err.Some? && !args[failedAt].Table? ==>
        errorMessage == old(errorMessage) && err.value == Reported(old(errorMessage))
      ensures |args| > 0 && err.Some? && old(errorMessage) == "" && !args[failedAt].Table? ==>
        err.value == OUTPUT_LIMIT
      ensures |args| > 0 && err.Some? && output.Contents() != old(output.Contents()) + Emitted(args[..failedAt]) ==>
        err.value == Reported(old(errorMessage))
      ensures err == None ==> errorMessage == old(errorMessage)
    {
      if |args| == 0 {
        return Some(NO_ARGUMENT), 0;
      }
      var failed;
      failed, failedAt := Dispatch(args);
      ghost var written := output.Contents();
      UpdateOutputStats();
      assert output.Contents() == written;
      if failed {
        err := Some(Reported(errorMessage));
      } else {
        err := None;
      }
    }
  }

  /** `instruction_usage`: the instructions consumed so far are the
      configured hook count minus the count left until the hook fires. */
  function InstructionUsage(hookCount: nat, remaining: nat): (used: nat)
    requires remaining <= hookCount
    ensures used <= hookCount
    ensures used + remaining == hookCount
  {
    hookCount - remaining
  }
}
