/** Sizes fixed by the paging simulator's headers. */
module Params {
  const MAXPROCESSES := 20
  const MAXPROCPAGES := 20
  const PAGESIZE := 128
  const PAGEWAIT := 100
  const PHYSICALPAGES := 100
  const MAXPC := 2560
  const MAXBRANCHES := 40
  const MAXEXITS := 10
  const MAXBRINGS := 100
  const PROGRAMS := 5
  const QUEUESIZE := 40
}
