/** Arithmetic that several components share. Products are named so that proofs which only add
  them up need not look inside. */
module Arithmetic {

  function Times(a: int, b: int): int { a * b }

  function Product(a: nat, b: nat): nat { a * b }

  function Total(s: seq<nat>): nat {
    if s == [] then 0 else s[0] + Total(s[1..])
  }

  function Min(a: real, b: real): real { if a < b then a else b }

  function Max(a: real, b: real): real { if a < b then b else a }
}
