/** The positive and negative conditionals of the understandability example:
    each negatively named predicate is the negation of its positive twin. */
module Understandability {

  /** A user: whether the account is active, and the permission check, which
      is not defined in the example and so is left as an arbitrary predicate
      on permission names. */
  datatype User = User(isActive: bool, hasPermission: string -> bool)

  const ACCESS_RESOURCE: string := "access_resource"

  /** is_user_not_authorized */
  predicate IsUserNotAuthorized(user: User)
  {
    !(user.isActive && user.hasPermission(ACCESS_RESOURCE))
  }

  /** is_user_authorized */
  function IsUserAuthorized(user: User): (authorized: bool)
    ensures authorized ==> user.isActive
  {
    user.isActive && user.hasPermission(ACCESS_RESOURCE)
  }

  /** is_not_valid_email */
  predicate IsNotValidEmail(email: string)
  {
    '@' !in email || '.' !in email
  }

  /** is_valid_email: both characters occur somewhere, in any order. */
  predicate IsValidEmail(email: string)
  {
    '@' in email && '.' in email
  }

  lemma NotAuthorizedIsNegation(user: User)
    ensures IsUserNotAuthorized(user) == !IsUserAuthorized(user)
  {
  }

  lemma NotValidEmailIsNegation(email: string)
    ensures IsNotValidEmail(email) == !IsValidEmail(email)
  {
  }

  /** Validity is containment only: rearranging the characters of an email
      never changes whether it is valid. */
  lemma {:induction false} ValidEmailIgnoresOrder(email: string, other: string)
    requires multiset(email) == multiset(other)
    ensures IsValidEmail(email) == IsValidEmail(other)
  {
    assert '@' in email <==> '@' in multiset(email);
    assert '.' in email <==> '.' in multiset(email);
    assert '@' in other <==> '@' in multiset(other);
    assert '.' in other <==> '.' in multiset(other);
  }

  /** Nothing is required around the two characters: any text with an '@'
      and a '.' in it, in either order, is valid, and adding text never
      makes a valid email invalid. */
  lemma ValidEmailAnyPlacement(before: string, between: string, after: string, extra: string)
    ensures IsValidEmail(before + "@" + between + "." + after)
    ensures IsValidEmail(before + "." + between + "@" + after)
    ensures IsValidEmail(before) ==> IsValidEmail(before + extra) && IsValidEmail(extra + before)
  {
    var atFirst := before + "@" + between + "." + after;
    assert atFirst[|before|] == '@' && atFirst[|before| + 1 + |between|] == '.';
    var dotFirst := before + "." + between + "@" + after;
    assert dotFirst[|before|] == '.' && dotFirst[|before| + 1 + |between|] == '@';
  }

  /** Validity is containment only: the position of the characters does not
      matter, and nothing is required around them. */
  lemma EmailExamples()
    ensures IsValidEmail("test@example.com")
    ensures !IsValidEmail("testexample.com")
    ensures !IsValidEmail("test@")
    ensures IsValidEmail("first.last@host")
    ensures IsValidEmail(".@")
  {
    assert "test@example.com"[4] == '@' && "test@example.com"[12] == '.';
    assert "first.last@host"[10] == '@' && "first.last@host"[5] == '.';
    assert ".@"[1] == '@' && ".@"[0] == '.';
  }
}
