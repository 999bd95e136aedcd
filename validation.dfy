/** class-validator's property rules, read over a plain JSON object: the building
    blocks the About and Profile DTOs combine. */
module Validation {
  import opened Json

  /** `@IsString()` on property `k`. */
  predicate IsStringAt(o: Obj, k: string) {
    k in o && o[k].JStr?
  }

  /** `@IsString() @IsNotEmpty()` on property `k`. */
  predicate IsNonEmptyStringAt(o: Obj, k: string) {
    k in o && o[k].JStr? && o[k].s != ""
  }

  /** `@IsNumber()` on property `k`. */
  predicate IsNumberAt(o: Obj, k: string) {
    k in o && o[k].JNum?
  }

  /** `@IsOptional()` before `rule`: an absent or null property passes. */
  predicate OptionalAt(o: Obj, k: string, rule: Json -> bool) {
    k !in o || o[k] == JNull || rule(o[k])
  }

  predicate IsStringValue(j: Json) {
    j.JStr?
  }

  predicate IsBooleanValue(j: Json) {
    j.JBool?
  }

  /** `@IsArray() @IsString({ each: true })`. */
  predicate IsStringArray(j: Json) {
    j.JArr? && forall i :: 0 <= i < |j.items| ==> j.items[i].JStr?
  }

  /** `@IsArray() @ValidateNested({ each: true })` on property `k`: every element
      is an object that passes `rule`. */
  predicate IsNestedArrayAt(o: Obj, k: string, rule: Json -> bool) {
    k in o && o[k].JArr? && forall i :: 0 <= i < |o[k].items| ==> rule(o[k].items[i])
  }
}
