/**
  The PHP values that the package reads from its configuration, and the few
  rules of the PHP language the package's decisions depend on: conversion to
  bool, the `(array)` cast, what `foreach` visits, `Arr::get` over a path of
  keys, `strtolower`, and the loose comparison `== 'mongodb'`.
 */
module Php {
  import opened Wrappers

  /** A configuration value. A PHP array is an ordered list of key/value entries. */
  datatype Value =
    | Null
    | Bool(b: bool)
    | Int(i: int)
    | Str(s: string)
    | Arr(entries: seq<(string, Value)>)

  /** PHP's conversion to bool, as used by `if ($v)` and `!$v`:
      null, false, 0, "", "0" and the empty array are falsy. */
  predicate Truthy(v: Value): (r: bool)
    ensures !r <==> v in {Null, Bool(false), Int(0), Str(""), Str("0"), Arr([])}
  {
    match v
    case Null => false
    case Bool(b) => b
    case Int(i) => i != 0
    case Str(s) => s != "" && s != "0"
    case Arr(es) => es != []
  }

  /** The entries a `foreach` over `v` visits, in order. PHP skips the loop
      (with a warning) when `v` is not an array. */
  function Entries(v: Value): seq<(string, Value)> {
    if v.Arr? then v.entries else []
  }

  /** The values of a list of entries, in order. */
  function ValuesOf(es: seq<(string, Value)>): (r: seq<Value>)
    ensures |r| == |es|
    ensures forall i :: 0 <= i < |es| ==> r[i] == es[i].1
  {
    seq(|es|, i requires 0 <= i < |es| => es[i].1)
  }

  /** The values a `foreach` visits after the cast `(array) $v`: none for
      null, the elements of an array, and `$v` itself for any scalar. */
  function CastValues(v: Value): (r: seq<Value>)
    ensures v.Null? ==> r == []
    ensures v.Arr? ==> |r| == |v.entries| && forall i :: 0 <= i < |r| ==> r[i] == v.entries[i].1
    ensures !v.Null? && !v.Arr? ==> r == [v]
  {
    match v
    case Null => []
    case Arr(es) => ValuesOf(es)
    case _ => [v]
  }

  /** The value of the first entry whose key is `k`. */
  function Find(es: seq<(string, Value)>, k: string): Option<Value> {
    if es == [] then None
    else if es[0].0 == k then Some(es[0].1)
    else Find(es[1..], k)
  }

  /** Find answers the value of the first entry with key `k`, and None
      exactly when no entry has that key. */
  lemma {:induction false} FindFirst(es: seq<(string, Value)>, k: string)
    ensures Find(es, k).None? <==> forall i :: 0 <= i < |es| ==> es[i].0 != k
    ensures Find(es, k).Some? ==>
              exists i :: 0 <= i < |es| && es[i] == (k, Find(es, k).value)
                          && forall j :: 0 <= j < i ==> es[j].0 != k
    decreases |es|
  {
    if es != [] && es[0].0 != k {
      FindFirst(es[1..], k);
      if Find(es, k).Some? {
        var i :| 0 <= i < |es[1..]| && es[1..][i] == (k, Find(es, k).value)
                 && forall j :: 0 <= j < i ==> es[1..][j].0 != k;
        assert es[i + 1] == (k, Find(es, k).value);
        forall j | 0 <= j < i + 1
          ensures es[j].0 != k
        {
          if j > 0 { assert es[j] == es[1..][j - 1]; }
        }
      }
      forall i | 0 <= i < |es| && Find(es, k).None?
        ensures es[i].0 != k
      {
        if i > 0 { assert es[i] == es[1..][i - 1]; }
      }
    }
  }

  /** `Arr::get($v, "k1.k2...", $default)` with the dotted key already split
      into its segments: descend one segment at a time, and answer `default`
      as soon as the current value is not an array or lacks the segment. */
  function Get(v: Value, path: seq<string>, default: Value): (r: Value)
    ensures path == [] ==> r == v
    ensures path != [] && !v.Arr? ==> r == default
    ensures path != [] && v.Arr? && (forall i :: 0 <= i < |v.entries| ==> v.entries[i].0 != path[0]) ==> r == default
    ensures |path| == 1 && v.Arr? && Find(v.entries, path[0]).Some? ==> r == Find(v.entries, path[0]).value
    decreases |path|
  {
    if path == [] then v
    else if !v.Arr? then default
    else
      FindFirst(v.entries, path[0]);
      match Find(v.entries, path[0])
      case Some(child) => Get(child, path[1..], default)
      case None => default
  }

  /** `strtolower` on one character: only ASCII letters change. */
  function LowerChar(c: char): char {
    if 'A' <= c <= 'Z' then (c as int + 32) as char else c
  }

  function Lower(s: string): (r: string)
    ensures |r| == |s|
    ensures forall i :: 0 <= i < |s| ==> r[i] == LowerChar(s[i])
  {
    seq(|s|, i requires 0 <= i < |s| => LowerChar(s[i]))
  }

  /** `strtolower($v) === 'mysql'`. A null, bool or integer converts to a
      string ("", "1" or digits) that never lowercases to "mysql", so only a
      string can pass. */
  predicate DriverIsMysql(v: Value): (r: bool)
    ensures r <==> v.Str? && |v.s| == 5
                   && forall i :: 0 <= i < 5 ==> v.s[i] == "mysql"[i] || v.s[i] == "MYSQL"[i]
  {
    v.Str? && Lower(v.s) == "mysql"
  }

  /** PHP 8 loose comparison `$v == 'mongodb'`: a string compares as a string
      (case-sensitively), `true` equals every non-empty string other than "0",
      and null, false, integers and arrays never equal 'mongodb'. */
  predicate LooselyEqualsMongodb(v: Value): (r: bool)
    ensures r <==> v == Str("mongodb") || v == Bool(true)
  {
    match v
    case Str(s) => s == "mongodb"
    case Bool(b) => b
    case _ => false
  }
}
