/** The sandbox's output buffer (`output_data`): a byte region `data` of
    `size` bytes, a write position `pos` and a ceiling `maxsize` (0 meaning
    unlimited), with the three write primitives `appends`, `appendc` and
    `appendf` (here only for the format "%s") and the growth routine
    `realloc_output`. */
module OutputBuffer {
  import opened Common

  /** Why a write primitive failed. The source returns 1 for both. */
  datatype Status = Success | LimitExceeded | OutOfMemory

  /** The size the doubling loop of `realloc_output` and `appendf` reaches
      from `n`: keep doubling until more than `pos + needed` bytes fit. */
  function Doubling(n: nat, pos: nat, needed: nat): nat
    requires n > 0
    decreases pos + needed - n
  {
    if pos + needed < n then n else Doubling(2 * n, pos, needed)
  }

  /** The doubling loop stops at the first power-of-two multiple of `n`
      that is large enough: it is at least `n`, leaves room for `needed`
      bytes past `pos`, and the size before the last doubling was not
      enough. */
  lemma {:induction false} DoublingBounds(n: nat, pos: nat, needed: nat)
    requires n > 0
    ensures n <= Doubling(n, pos, needed)
    ensures pos + needed < Doubling(n, pos, needed)
    ensures Doubling(n, pos, needed) == n || Doubling(n, pos, needed) <= 2 * (pos + needed)
    decreases pos + needed - n
  {
    if pos + needed >= n {
      DoublingBounds(2 * n, pos, needed);
    }
  }

  /** A candidate size cut down to a non-zero ceiling. */
  function Clamp(n: nat, maxsize: nat): nat
  {
    if maxsize > 0 && n > maxsize then maxsize else n
  }

  /** The new size chosen by `realloc_output` and `appendf`: twice the
      current size, doubled until `needed` bytes fit past `pos`, then
      clamped to a non-zero `maxsize`. */
  method GrowSize(size: nat, pos: nat, needed: nat, maxsize: nat) returns (newsize: nat)
    requires 0 < size
    ensures newsize == Clamp(Doubling(2 * size, pos, needed), maxsize)
    ensures maxsize > 0 ==> newsize <= maxsize
    ensures (maxsize == 0 || size <= maxsize) ==> size <= newsize
    ensures maxsize == 0 ==> pos + needed < newsize
    ensures maxsize > 0 && pos + needed < maxsize ==> pos + needed < newsize
    ensures maxsize > 0 && pos + needed == maxsize ==> newsize == maxsize
  {
    newsize := size * 2;
    while needed >= newsize - pos
      invariant 2 * size <= newsize
      invariant Doubling(newsize, pos, needed) == Doubling(2 * size, pos, needed)
      decreases pos + needed - newsize
    {
      newsize := newsize * 2;
    }
    DoublingBounds(2 * size, pos, needed);
    if maxsize > 0 && newsize > maxsize {
      newsize := maxsize;
    }
  }

  class Buffer {
    var data: array<byte>
    var size: nat
    var pos: nat
    var maxsize: nat

    /** The buffer invariant: `size` is the length of the region, there is
        always room for a terminator at `pos`, and a non-zero ceiling bounds
        the size. */
    ghost predicate Valid()
      reads this
    {
      data.Length == size && pos < size && (maxsize > 0 ==> size <= maxsize)
    }

    /** The bytes written so far. */
    function Contents(): seq<byte>
      reads this, data
      requires Valid()
    {
      data[..pos]
    }

    /** The byte at `pos` is the NUL terminator. */
    predicate Terminated()
      reads this, data
      requires Valid()
    {
      data[pos] == 0
    }

    /** An empty, terminated buffer of `initial` bytes, as the host sets it up. */
    constructor (initial: nat, maxsize: nat)
      requires 0 < initial && (maxsize > 0 ==> initial <= maxsize)
      ensures Valid() && fresh(data)
      ensures size == initial && this.maxsize == maxsize
      ensures Contents() == [] && Terminated()
    {
      var region := new byte[initial];
      region[0] := 0;
      data := region;
      size := initial;
      pos := 0;
      this.maxsize := maxsize;
    }

    /** `realloc_output`: grow the region so that `needed` bytes fit past
        `pos`, unless that would pass a non-zero ceiling or the host has no
        memory. Growth keeps every existing byte. */
    method Realloc(needed: nat) returns (st: Status)
      requires Valid()
      modifies this
      ensures Valid() && pos == old(pos) && maxsize == old(maxsize)
      ensures st == LimitExceeded <==> maxsize > 0 && needed + pos > maxsize
      ensures st != Success ==> data == old(data) && size == old(size)
      ensures st == Success ==>
        && fresh(data) && old(size) <= size
        && size == Clamp(Doubling(2 * old(size), pos, needed), maxsize)
        && size - pos >= needed
        && data[..old(size)] == old(data[..])
    {
      if maxsize > 0 && needed + pos > maxsize {
        return LimitExceeded;
      }
      var newsize := GrowSize(size, pos, needed, maxsize);
      var hostOk: bool :| true;  // whether realloc returns a block
      if !hostOk {
        return OutOfMemory;
      }
      var p := new byte[newsize];
      forall i | 0 <= i < size {
        p[i] := data[i];
      }
      data, size := p, newsize;
      st := Success;
    }

    /** The copy step of `appends`: `c` and a terminator go to `pos`, which
        then moves past `c`. */
    method Copy(c: seq<byte>)
      requires Valid() && pos + |c| < size
      modifies this`pos, data
      ensures Valid() && pos == old(pos) + |c|
      ensures Contents() == old(Contents()) + c && Terminated()
    {
      forall i | 0 <= i < |c| {
        data[pos + i] := c[i];
      }
      data[pos + |c|] := 0;
      assert data[..pos + |c|] == data[..pos] + c;
      pos := pos + |c|;
    }

    /** The work of `appends` once the string is cut at its terminator:
        write the bytes `c` and a NUL at `pos`, growing first when fewer than
        `|c| + 1` bytes are free. */
    method AppendBytes(c: seq<byte>) returns (st: Status)
      requires Valid()
      modifies this, data
      ensures Valid() && maxsize == old(maxsize) && old(size) <= size
      ensures data == old(data) || fresh(data)
      ensures st == Success ==> Contents() == old(Contents()) + c && Terminated()
      ensures st != Success ==>
        && data == old(data) && size == old(size) && pos == old(pos)
        && data[..] == old(data[..])
      ensures st == LimitExceeded <==>
        && old(size) - old(pos) < |c| + 1
        && maxsize > 0 && |c| + 1 + old(pos) > maxsize
      ensures old(pos) + |c| < old(size) ==> st == Success && data == old(data)
    {
      var needed := |c| + 1;
      if size - pos < needed {
        st := Realloc(needed);
        if st != Success {
          return;
        }
      }
      Copy(c);
      st := Success;
    }

    /** `appends`: copy the C string `str` and its terminator to `pos`,
        growing first when fewer than `strlen(str) + 1` bytes are free. */
    method Appends(str: seq<byte>) returns (st: Status)
      requires Valid()
      modifies this, data
      ensures Valid() && maxsize == old(maxsize) && old(size) <= size
      ensures data == old(data) || fresh(data)
      ensures st == Success ==> Contents() == old(Contents()) + UpToNul(str, 0) && Terminated()
      ensures st != Success ==>
        && data == old(data) && size == old(size) && pos == old(pos)
        && data[..] == old(data[..])
      ensures st == LimitExceeded <==>
        && old(size) - old(pos) < |UpToNul(str, 0)| + 1
        && maxsize > 0 && |UpToNul(str, 0)| + 1 + old(pos) > maxsize
      ensures old(pos) + |UpToNul(str, 0)| < old(size) ==> st == Success && data == old(data)
    {
      st := AppendBytes(UpToNul(str, 0));
    }

    /** `appendc`: write one byte and a terminator, growing first when
        fewer than two bytes are free. */
    method Appendc(ch: byte) returns (st: Status)
      requires Valid()
      modifies this, data
      ensures Valid() && maxsize == old(maxsize) && old(size) <= size
      ensures data == old(data) || fresh(data)
      ensures st == Success ==> Contents() == old(Contents()) + [ch] && Terminated()
      ensures st != Success ==>
        && data == old(data) && size == old(size) && pos == old(pos)
        && data[..] == old(data[..])
      ensures st == LimitExceeded <==> old(size) - old(pos) < 2 && maxsize > 0 && 2 + old(pos) > maxsize
      ensures old(pos) + 1 < old(size) ==> st == Success && data == old(data)
    {
      if size - pos < 2 {
        st := Realloc(2);
        if st != Success {
          return;
        }
      }
      data[pos] := ch;
      pos := pos + 1;
      data[pos] := 0;
      st := Success;
    }

    /** `vsnprintf(data + pos, size - pos, "%s", s)` for a string whose bytes
        before the terminator are `c`: it writes as much of `c` as fits
        together with a terminator, touches nothing before `pos`, and reports
        the full length `|c|`. */
    method Vsnprintf(c: seq<byte>) returns (needed: nat)
      requires Valid()
      modifies data
      ensures needed == |c|
      ensures data[..pos] == old(data[..pos])
      ensures needed < size - pos ==> data[pos..pos + needed] == c && data[pos + needed] == 0
      ensures size - pos <= needed ==> data[pos..size - 1] == c[..size - pos - 1] && data[size - 1] == 0
    {
      var w := Min(|c|, size - pos - 1);
      forall i | 0 <= i < w {
        data[pos + i] := c[i];
      }
      data[pos + w] := 0;
      needed := |c|;
    }

    /** The grow step of `appendf` once `needed` bytes did not fit: fail at
        the ceiling, otherwise move to a fresh region large enough for them
        that starts with the first `pos` bytes of the old one. */
    method Regrow(needed: nat) returns (st: Status)
      requires Valid() && size - pos <= needed
      modifies this
      ensures Valid() && pos == old(pos) && maxsize == old(maxsize)
      ensures st == LimitExceeded <==> maxsize > 0 && (old(size) >= maxsize || pos + needed >= maxsize)
      ensures st != Success ==> data == old(data) && size == old(size)
      ensures st == Success ==>
        && fresh(data) && pos + needed < size
        && size == Clamp(Doubling(2 * old(size), pos, needed), maxsize)
        && data[..pos] == old(data[..pos])
    {
      if maxsize > 0 && (size >= maxsize || pos + needed >= maxsize) {
        return LimitExceeded;
      }
      var newsize := GrowSize(size, pos, needed, maxsize);
      var hostOk: bool :| true;  // whether malloc returns a block
      if !hostOk {
        return OutOfMemory;
      }
      var p := new byte[newsize];
      forall i | 0 <= i < pos {
        p[i] := data[i];
      }
      data, size := p, newsize;
      st := Success;
    }

    /** The loop of `appendf(output, "%s", s)` for a string whose bytes
        before the terminator are `c`: format into the free space; when the
        text does not fit, fail if the ceiling is reached, otherwise move to
        a larger region holding the first `pos` bytes and format again. A
        failed call keeps `pos` and the bytes before it, but leaves behind
        the truncated copy that the first formatting attempt wrote. */
    method FormatBytes(c: seq<byte>) returns (st: Status)
      requires Valid()
      modifies this, data
      ensures Valid() && maxsize == old(maxsize) && old(size) <= size
      ensures data == old(data) || fresh(data)
      ensures st == Success ==> Contents() == old(Contents()) + c && Terminated()
      ensures st == Success && old(size) <= old(pos) + |c| ==>
        fresh(data) && size == Clamp(Doubling(2 * old(size), old(pos), |c|), maxsize)
      ensures st != Success ==>
        && data == old(data) && size == old(size) && pos == old(pos)
        && data[..pos] == old(data[..pos])
        && size - pos <= |c|
        && data[pos..size - 1] == c[..size - pos - 1] && data[size - 1] == 0
      ensures st == LimitExceeded <==>
        && old(size) - old(pos) <= |c|
        && maxsize > 0 && (old(size) >= maxsize || old(pos) + |c| >= maxsize)
      ensures old(pos) + |c| < old(size) ==> st == Success && data == old(data)
    {
      ghost var before := data[..pos];
      while true
        invariant Valid() && maxsize == old(maxsize) && pos == old(pos) && old(size) <= size
        invariant data[..pos] == before
        invariant (data == old(data) && size == old(size))
          || (fresh(data) && old(size) <= pos + |c| && pos + |c| < size
              && size == Clamp(Doubling(2 * old(size), pos, |c|), maxsize))
        decreases if pos + |c| < size then 0 else 1
      {
        var remaining := size - pos;
        var needed := Vsnprintf(c);
        if needed >= remaining {
          st := Regrow(needed);
          if st != Success {
            return;
          }
        } else {
          assert data[..pos + needed] == data[..pos] + data[pos..pos + needed];
          pos := pos + needed;
          break;
        }
      }
      st := Success;
    }

    /** `appendf(output, "%s", s)`: append the C string `s`, with the
        growth and failure behaviour of `FormatBytes`. */
    method AppendFormatted(s: seq<byte>) returns (st: Status)
      requires Valid()
      modifies this, data
      ensures Valid() && maxsize == old(maxsize) && old(size) <= size
      ensures data == old(data) || fresh(data)
      ensures st == Success ==> Contents() == old(Contents()) + UpToNul(s, 0) && Terminated()
      ensures st == Success && old(size) <= old(pos) + |UpToNul(s, 0)| ==>
        fresh(data) && size == Clamp(Doubling(2 * old(size), old(pos), |UpToNul(s, 0)|), maxsize)
      ensures st != Success ==>
        && data == old(data) && size == old(size) && pos == old(pos)
        && data[..pos] == old(data[..pos])
        && size - pos <= |UpToNul(s, 0)|
        && data[pos..size - 1] == UpToNul(s, 0)[..size - pos - 1] && data[size - 1] == 0
      ensures st == LimitExceeded <==>
        && old(size) - old(pos) <= |UpToNul(s, 0)|
        && maxsize > 0 && (old(size) >= maxsize || old(pos) + |UpToNul(s, 0)| >= maxsize)
      ensures old(pos) + |UpToNul(s, 0)| < old(size) ==> st == Success && data == old(data)
    {
      st := FormatBytes(UpToNul(s, 0));
    }
  }
}
