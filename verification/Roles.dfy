/** SSNTP roles: sets of bits. */
module Roles {

  type Role = bv32

  /** No bit is the unknown role. */
  const UNKNOWN: Role := 0

  predicate HasRole(role: Role, cmp: Role) {
    role & cmp == cmp
  }

  /** A role of one bit is had by those that have the bit. */
  lemma HasBit(role: Role, i: nat)
    requires i < 32
    ensures HasRole(role, 1 << i) <==> (role >> i) & 1 == 1
  {
  }

  /** Those that have a role have every part of it. */
  lemma HasParts(role: Role, a: Role, b: Role)
    requires HasRole(role, a | b)
    ensures HasRole(role, a)
  {
  }

  /** Those that have two roles have both together. */
  lemma HasBoth(role: Role, a: Role, b: Role)
    requires HasRole(role, a) && HasRole(role, b)
    ensures HasRole(role, a | b)
  {
  }

  lemma HasItself(role: Role)
    ensures HasRole(role, role) && HasRole(role, UNKNOWN)
  {
  }

  /** There is a role for any two. */
  lemma BothRoles(a: Role, b: Role) returns (both: Role)
    ensures HasRole(both, a) && HasRole(both, b)
  {
    both := a | b;
  }
}
