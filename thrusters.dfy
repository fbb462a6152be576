/** The per-thruster attributes `ModelParams.__init__` adds with `setattr`:
    for thruster number n (counting from 1 in declaration order) the
    position `thruster<n>_x`, `_y`, `_z` and the command topic
    `thruster<n>_topic`. */
module Thrusters {
  import opened Values
  import opened Decimal

  /** The command topic of thruster `n`: the ThrusterPlugin listens on
      `cmd_vel` for angular velocity and on `cmd_thrust` for thrust. */
  function Topic(modelName: string, n: nat, useAngvel: bool): string {
    "/model/" + modelName + "/joint/thruster" + NatToString(n) + "_joint/cmd_" +
    (if useAngvel then "vel" else "thrust")
  }

  /** The attribute name `f"thruster{n}_{field}"`. */
  function ThrusterKey(n: nat, field: string): string {
    "thruster" + NatToString(n) + "_" + field
  }

  /** A thruster position is a tuple of three coordinates. */
  predicate IsPosition(t: seq<Value>) {
    |t| >= 3
  }

  /** The four attributes of thruster `n` at position `t`. */
  function ThrusterEntry(modelName: string, n: nat, t: seq<Value>, useAngvel: bool): map<string, Value>
    requires IsPosition(t)
  {
    map[ThrusterKey(n, "x") := t[0],
        ThrusterKey(n, "y") := t[1],
        ThrusterKey(n, "z") := t[2],
        ThrusterKey(n, "topic") := Str(Topic(modelName, n, useAngvel))]
  }

  /** The attributes the loop has added after the thrusters `ts`. */
  function ThrusterAttrs(modelName: string, ts: seq<seq<Value>>, useAngvel: bool): map<string, Value>
    requires forall i :: 0 <= i < |ts| ==> IsPosition(ts[i])
  {
    if ts == [] then map[]
    else ThrusterAttrs(modelName, ts[..|ts| - 1], useAngvel) + ThrusterEntry(modelName, |ts|, ts[|ts| - 1], useAngvel)
  }

  /** All attribute names of thrusters 1 to n. */
  function ThrusterKeys(n: nat): set<string> {
    if n == 0 then {}
    else ThrusterKeys(n - 1) + {ThrusterKey(n, "x"), ThrusterKey(n, "y"), ThrusterKey(n, "z"), ThrusterKey(n, "topic")}
  }

  // ---------------------------------------------------------------------
  // Lemmas

  /** The length of the longest run of digits at the start of `s`. */
  function DigitRun(s: string): (n: nat)
    ensures n <= |s|
    ensures forall i :: 0 <= i < n ==> IsDigit(s[i])
    ensures n < |s| ==> !IsDigit(s[n])
  {
    if s == [] || !IsDigit(s[0]) then 0 else 1 + DigitRun(s[1..])
  }

  lemma DigitRunOfNumeral(m: nat, u: string)
    requires |u| > 0 && !IsDigit(u[0])
    ensures DigitRun(NatToString(m) + u) == |NatToString(m)|
  {
    var a := NatToString(m);
    var s := a + u;
    assert forall i :: 0 <= i < |a| ==> s[i] == a[i];
    assert s[|a|] == u[0];
  }

  /** A numeral is delimited by the first character that is not a digit. */
  lemma NumeralPrefix(m: nat, n: nat, u: string, v: string)
    requires |u| > 0 && !IsDigit(u[0]) && |v| > 0 && !IsDigit(v[0])
    requires NatToString(m) + u == NatToString(n) + v
    ensures m == n && u == v
  {
    var a, b := NatToString(m), NatToString(n);
    DigitRunOfNumeral(m, u);
    DigitRunOfNumeral(n, v);
    assert |a| == |b|;
    assert a == (a + u)[..|a|] && b == (b + v)[..|b|];
    NatToStringInjective(m, n);
    assert u == (a + u)[|a|..] && v == (b + v)[|b|..];
  }

  /** Distinct (thruster, field) pairs have distinct attribute names. */
  lemma ThrusterKeyInjective(m: nat, f: string, n: nat, g: string)
    ensures ThrusterKey(m, f) == ThrusterKey(n, g) ==> m == n && f == g
  {
    if ThrusterKey(m, f) == ThrusterKey(n, g) {
      var p := "thruster";
      assert ThrusterKey(m, f) == p + (NatToString(m) + ("_" + f));
      assert ThrusterKey(n, g) == p + (NatToString(n) + ("_" + g));
      assert NatToString(m) + ("_" + f) == ThrusterKey(m, f)[|p|..];
      assert NatToString(n) + ("_" + g) == ThrusterKey(n, g)[|p|..];
      NumeralPrefix(m, n, "_" + f, "_" + g);
      assert f == ("_" + f)[1..] && g == ("_" + g)[1..];
    }
  }

  /** Distinct thrusters command distinct topics. */
  lemma TopicInjective(modelName: string, m: nat, n: nat, useAngvel: bool)
    ensures Topic(modelName, m, useAngvel) == Topic(modelName, n, useAngvel) ==> m == n
  {
    var p := "/model/" + modelName + "/joint/thruster";
    var s := "_joint/cmd_" + (if useAngvel then "vel" else "thrust");
    assert Topic(modelName, m, useAngvel) == p + (NatToString(m) + s);
    assert Topic(modelName, n, useAngvel) == p + (NatToString(n) + s);
    if Topic(modelName, m, useAngvel) == Topic(modelName, n, useAngvel) {
      assert NatToString(m) + s == Topic(modelName, m, useAngvel)[|p|..];
      assert NatToString(n) + s == Topic(modelName, n, useAngvel)[|p|..];
      NumeralPrefix(m, n, s, s);
    }
  }

  /** The suffix of a topic names the control method. */
  lemma TopicSuffix(modelName: string, n: nat, useAngvel: bool)
    ensures var t := Topic(modelName, n, useAngvel);
      if useAngvel then |t| >= 7 && t[|t| - 7..] == "cmd_vel"
      else |t| >= 10 && t[|t| - 10..] == "cmd_thrust"
  {
  }

  /** Every thruster attribute name is "thruster" followed by a digit. */
  lemma ThrusterKeysShape(n: nat, k: string)
    requires k in ThrusterKeys(n)
    ensures |k| > 8 && k[..8] == "thruster" && IsDigit(k[8])
  {
    if n > 0 && k !in ThrusterKeys(n - 1) {
      var f :| f in {"x", "y", "z", "topic"} && k == ThrusterKey(n, f);
      assert k == "thruster" + (NatToString(n) + "_" + f);
      assert k[8] == NatToString(n)[0];
    } else if n > 0 {
      ThrusterKeysShape(n - 1, k);
    }
  }

  /** The names of thruster m are among those of thrusters 1 to n exactly when 1 <= m <= n. */
  lemma {:induction false} ThrusterKeysMember(n: nat, m: nat, f: string)
    requires f in {"x", "y", "z", "topic"}
    ensures ThrusterKey(m, f) in ThrusterKeys(n) <==> 1 <= m <= n
  {
    if n > 0 {
      ThrusterKeysMember(n - 1, m, f);
      ThrusterKeyInjective(m, f, n, "x");
      ThrusterKeyInjective(m, f, n, "y");
      ThrusterKeyInjective(m, f, n, "z");
      ThrusterKeyInjective(m, f, n, "topic");
    }
  }

  /** Four pairwise distinct strings make a set of four. */
  lemma FourDistinct(a: string, b: string, c: string, d: string)
    requires a != b && a != c && a != d && b != c && b != d && c != d
    ensures |{a, b, c, d}| == 4
  {
    assert {a, b, c, d} == {a, b, c} + {d};
    assert {a, b, c} == {a, b} + {c};
  }

  /** The four names of one thruster are distinct. */
  lemma EntryKeysDistinct(n: nat)
    ensures |{ThrusterKey(n, "x"), ThrusterKey(n, "y"), ThrusterKey(n, "z"), ThrusterKey(n, "topic")}| == 4
  {
    ThrusterKeyInjective(n, "x", n, "y");
    ThrusterKeyInjective(n, "x", n, "z");
    ThrusterKeyInjective(n, "x", n, "topic");
    ThrusterKeyInjective(n, "y", n, "z");
    ThrusterKeyInjective(n, "y", n, "topic");
    ThrusterKeyInjective(n, "z", n, "topic");
    FourDistinct(ThrusterKey(n, "x"), ThrusterKey(n, "y"), ThrusterKey(n, "z"), ThrusterKey(n, "topic"));
  }

  /** Thrusters 1 to n have 4n distinct attribute names. */
  lemma {:induction false} ThrusterKeysCount(n: nat)
    ensures |ThrusterKeys(n)| == 4 * n
  {
    if n > 0 {
      ThrusterKeysCount(n - 1);
      var added := {ThrusterKey(n, "x"), ThrusterKey(n, "y"), ThrusterKey(n, "z"), ThrusterKey(n, "topic")};
      ThrusterKeysMember(n - 1, n, "x");
      ThrusterKeysMember(n - 1, n, "y");
      ThrusterKeysMember(n - 1, n, "z");
      ThrusterKeysMember(n - 1, n, "topic");
      EntryKeysDistinct(n);
      assert ThrusterKeys(n - 1) !! added;
      assert ThrusterKeys(n) == ThrusterKeys(n - 1) + added;
    }
  }

  /** A later thruster's entry does not touch an earlier thruster's names. */
  lemma EntryMissesEarlier(modelName: string, n: nat, k: nat, t: seq<Value>, useAngvel: bool, f: string)
    requires n < k && IsPosition(t)
    ensures ThrusterKey(n, f) !in ThrusterEntry(modelName, k, t, useAngvel)
  {
    ThrusterKeyInjective(n, f, k, "x");
    ThrusterKeyInjective(n, f, k, "y");
    ThrusterKeyInjective(n, f, k, "z");
    ThrusterKeyInjective(n, f, k, "topic");
  }

  /** Thruster n's attributes hold its coordinates and its topic. */
  lemma {:induction false} ThrusterAttrsAt(modelName: string, ts: seq<seq<Value>>, useAngvel: bool, n: nat)
    requires forall i :: 0 <= i < |ts| ==> IsPosition(ts[i])
    requires 1 <= n <= |ts|
    ensures var m := ThrusterAttrs(modelName, ts, useAngvel);
      && ThrusterKey(n, "x") in m && m[ThrusterKey(n, "x")] == ts[n - 1][0]
      && ThrusterKey(n, "y") in m && m[ThrusterKey(n, "y")] == ts[n - 1][1]
      && ThrusterKey(n, "z") in m && m[ThrusterKey(n, "z")] == ts[n - 1][2]
      && ThrusterKey(n, "topic") in m && m[ThrusterKey(n, "topic")] == Str(Topic(modelName, n, useAngvel))
  {
    var k := |ts|;
    if n < k {
      var prefix := ts[..k - 1];
      ThrusterAttrsAt(modelName, prefix, useAngvel, n);
      assert prefix[n - 1] == ts[n - 1];
      EntryMissesEarlier(modelName, n, k, ts[k - 1], useAngvel, "x");
      EntryMissesEarlier(modelName, n, k, ts[k - 1], useAngvel, "y");
      EntryMissesEarlier(modelName, n, k, ts[k - 1], useAngvel, "z");
      EntryMissesEarlier(modelName, n, k, ts[k - 1], useAngvel, "topic");
    } else {
      EntryKeysDistinct(k);
    }
  }

  /** The loop adds exactly the names of thrusters 1 to |ts|. */
  lemma {:induction false} ThrusterAttrsKeys(modelName: string, ts: seq<seq<Value>>, useAngvel: bool)
    requires forall i :: 0 <= i < |ts| ==> IsPosition(ts[i])
    ensures ThrusterAttrs(modelName, ts, useAngvel).Keys == ThrusterKeys(|ts|)
  {
    if ts != [] {
      ThrusterAttrsKeys(modelName, ts[..|ts| - 1], useAngvel);
    }
  }

  /** What the loop leaves behind: for each thruster n, counting from 1 in
      declaration order, its coordinates and its topic; no other attribute,
      so there are exactly as many topics as thrusters. */
  lemma ThrusterAttrsContents(modelName: string, ts: seq<seq<Value>>, useAngvel: bool)
    requires forall i :: 0 <= i < |ts| ==> IsPosition(ts[i])
    ensures ThrusterAttrs(modelName, ts, useAngvel).Keys == ThrusterKeys(|ts|)
    ensures |ThrusterAttrs(modelName, ts, useAngvel)| == 4 * |ts|
    ensures forall n :: 1 <= n <= |ts| ==>
      var m := ThrusterAttrs(modelName, ts, useAngvel);
      && ThrusterKey(n, "x") in m && m[ThrusterKey(n, "x")] == ts[n - 1][0]
      && ThrusterKey(n, "y") in m && m[ThrusterKey(n, "y")] == ts[n - 1][1]
      && ThrusterKey(n, "z") in m && m[ThrusterKey(n, "z")] == ts[n - 1][2]
      && ThrusterKey(n, "topic") in m && m[ThrusterKey(n, "topic")] == Str(Topic(modelName, n, useAngvel))
  {
    ThrusterAttrsKeys(modelName, ts, useAngvel);
    ThrusterKeysCount(|ts|);
    assert |ThrusterAttrs(modelName, ts, useAngvel).Keys| == |ThrusterAttrs(modelName, ts, useAngvel)|;
    forall n | 1 <= n <= |ts| ensures
      var m := ThrusterAttrs(modelName, ts, useAngvel);
      && ThrusterKey(n, "x") in m && m[ThrusterKey(n, "x")] == ts[n - 1][0]
      && ThrusterKey(n, "y") in m && m[ThrusterKey(n, "y")] == ts[n - 1][1]
      && ThrusterKey(n, "z") in m && m[ThrusterKey(n, "z")] == ts[n - 1][2]
      && ThrusterKey(n, "topic") in m && m[ThrusterKey(n, "topic")] == Str(Topic(modelName, n, useAngvel))
    {
      ThrusterAttrsAt(modelName, ts, useAngvel, n);
    }
  }
}
