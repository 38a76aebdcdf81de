/**
 * The request-body rules that gin enforces while binding JSON
 * (`binding:"..."` struct tags), written out as predicates. The syntax
 * check behind the `email` tag belongs to the validator library and is
 * passed in as `isEmail`.
 */
module Validation {
  import Strconv

  type EmailCheck = string -> bool

  /** The user fields of a decoded JSON body (an `id` in the body is overwritten by every handler). */
  datatype UserFields = UserFields(name: string, email: string, age: Strconv.Int64)

  /** The post fields of a decoded JSON body. */
  datatype PostFields = PostFields(title: string, content: string, userId: nat)

  /**
   * `name: required,min=2,max=50`, `email: required,email`,
   * `age: required,min=1,max=150` (jour_03 and jour_04). Lengths count
   * characters, as the validator counts runes.
   */
  predicate StrictUser(f: UserFields, isEmail: EmailCheck) {
    && 2 <= |f.name| <= 50
    && f.email != "" && isEmail(f.email)
    && 1 <= f.age <= 150
  }

  /** `name: required`, `email: required,email`, no rule on `age` (jour_02). */
  predicate BasicUser(f: UserFields, isEmail: EmailCheck) {
    && f.name != ""
    && f.email != "" && isEmail(f.email)
  }

  /** `title: required,min=3,max=100`, `content: required,min=10`; `user_id` has no tag. */
  predicate ValidPost(f: PostFields) {
    && 3 <= |f.title| <= 100
    && |f.content| >= 10
  }

}
