/** Types that several modules share. */
module Basics {

  datatype Option<T> = None | Some(value: T)

  /** RefCountReleaseStatus of api/ref_count.h. */
  datatype ReleaseStatus = DroppedLastRef | OtherRefsRemained
}
