/** The process identity queries of src/bench.cpp. With BENCH_USE_MPI the
    rank and size come from the MPI runtime (here: fields of the build); in
    a build without MPI they are the constants 0 and 1. */
module World {

  /** How the harness was built and where this process sits in the run. */
  datatype Build = Build(mpi: bool, mpiRank: nat, mpiSize: nat)

  /** world_rank() */
  function Rank(b: Build): (r: nat)
    ensures !b.mpi ==> r == 0
    ensures b.mpi ==> r == b.mpiRank
  {
    if b.mpi then b.mpiRank else 0
  }

  /** world_size() */
  function Size(b: Build): (n: nat)
    ensures !b.mpi ==> n == 1
    ensures b.mpi ==> n == b.mpiSize
  {
    if b.mpi then b.mpiSize else 1
  }

  /** Rank 0 is the only rank that reports. */
  predicate Reports(b: Build) {
    Rank(b) == 0
  }

  /** A build without MPI is a single rank, and that rank reports. */
  lemma SerialBuildReports(b: Build)
    requires !b.mpi
    ensures Rank(b) == 0 && Size(b) == 1 && Reports(b)
  {
  }
}
