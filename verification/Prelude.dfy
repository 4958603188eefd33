// Shared value types.
module Prelude {
  datatype Option<+T> = None | Some(value: T)

  datatype Result<+T> = Ok(value: T) | Err(error: string)

  // What `str.strip` takes away.
  predicate Space(c: char) {
    var n := c as int;
    || 9 <= n <= 13 || 28 <= n <= 32 || n == 0x85 || n == 0xa0 || n == 0x1680 || 0x2000 <= n <= 0x200a
    || n == 0x2028 || n == 0x2029 || n == 0x202f || n == 0x205f || n == 0x3000
  }

  // The 29 of them.
  lemma SpaceExact(c: char)
    ensures Space(c) <==> c as int in {
      0x9, 0xa, 0xb, 0xc, 0xd, 0x1c, 0x1d, 0x1e, 0x1f, 0x20, 0x85, 0xa0, 0x1680, 0x2000, 0x2001, 0x2002, 0x2003, 0x2004,
      0x2005, 0x2006, 0x2007, 0x2008, 0x2009, 0x200a, 0x2028, 0x2029, 0x202f, 0x205f, 0x3000
    }
  {}

  // `s.strip(...)`, of the characters that are `out`.
  function Strip(s: string, out: char -> bool): (r: string)
    ensures r != "" ==> !out(r[0]) && !out(r[|r| - 1])
  {
    if s != "" && out(s[0]) then Strip(s[1..], out)
    else if s != "" && out(s[|s| - 1]) then Strip(s[..|s| - 1], out)
    else s
  }

  // What is stripped stands around it and is `out`; that, and its own ends not being so, decides it.
  lemma {:induction false} StripExact(front: string, core: string, back: string, out: char -> bool)
    requires (forall i :: 0 <= i < |front| ==> out(front[i])) && (forall i :: 0 <= i < |back| ==> out(back[i]))
    requires core != "" ==> !out(core[0]) && !out(core[|core| - 1])
    ensures Strip(front + core + back, out) == core
    decreases |front| + |back|
  {
    var s := front + core + back;
    if front != "" {
      assert s[0] == front[0] && s[1..] == front[1..] + core + back;
      StripExact(front[1..], core, back, out);
    } else if back != "" {
      assert s[|s| - 1] == back[|back| - 1];
      if core == "" {
        assert s[0] == back[0] && s[1..] == front + core + back[1..];
        StripExact(front, core, back[1..], out);
      } else {
        assert s[0] == core[0] && s[..|s| - 1] == front + core + back[..|back| - 1];
        StripExact(front, core, back[..|back| - 1], out);
      }
    } else {
      assert s == core;
    }
  }

  lemma {:induction false} StripSame(s: string, out: char -> bool, out': char -> bool)
    requires forall c :: out(c) <==> out'(c)
    ensures Strip(s, out) == Strip(s, out')
  {
    if s != "" && out(s[0]) {
      StripSame(s[1..], out, out');
    } else if s != "" && out(s[|s| - 1]) {
      StripSame(s[..|s| - 1], out, out');
    }
  }
}
