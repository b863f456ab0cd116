/**
 Values the service passes around: byte strings, jobs and their statuses, prover
 outcomes, and the environment the process is started with.
 */
module Jobs {

  type byte = bv8
  type Bytes = seq<byte>

  /** Lengths are written as unsigned 64-bit numbers. */
  const VEC_LIMIT: nat := 0x1_0000_0000_0000_0000

  /** A byte vector whose length can be written so. */
  type Vec = b: Bytes | |b| < VEC_LIMIT

  const KEY_LEN: nat := 32
  const HASH_LEN: nat := 32
  const NONCE_LEN: nat := 12

  type Digest = b: Bytes | |b| == HASH_LEN witness seq(HASH_LEN, _ => 0)
  type EncryptionKey = b: Bytes | |b| == KEY_LEN witness seq(KEY_LEN, _ => 0)
  type Nonce = b: Bytes | |b| == NONCE_LEN witness seq(NONCE_LEN, _ => 0)

  datatype Option<+T> = None | Some(value: T)
  datatype Result<+T, +E> = Ok(value: T) | Err(error: E)

  /** A request identifier issued by the prover network. */
  type RequestId = Bytes

  /** A proof: an opaque seal and the bytes the proven program committed. */
  datatype Proof = Proof(seal: Bytes, publicValues: Bytes)

  /** A commitment to the input: in this service the SHA-256 digest of the data. */
  datatype Anchor = Anchor(data: Vec)

  datatype Input = Input(data: Bytes)

  datatype Job = Job(anchor: Anchor, input: Input)

  /** The error classes of the prover network's client. */
  datatype NetworkError =
    | SimulationFailed
    | RequestUnexecutable
    | RequestUnfulfillable
    | RequestTimedOut
    | RpcError
    | Other

  /** The service's own error value, kept in a tree when a job fails. */
  datatype RunnerError = ZkClientError(cause: NetworkError)

  datatype JobStatus =
    | LocalZkProofPending
    | RemoteZkProofRequesting
    | RemoteZkProofPending(id: RequestId)
    | ZkProofFinished(proof: Proof)
    | Failed(error: RunnerError, retry: Option<JobStatus>)

  /** How a call to a prover client ends. */
  datatype Outcome =
    | Proved(proof: Proof)        // a local proof, or a remote one that was waited for
    | Submitted(id: RequestId)    // the network accepted the request
    | NetErr(cause: NetworkError) // an error that downcasts to a network error
    | Abandon                     // any other error, or a panic of the task

  /** What get_verifiable_encryption gives back. */
  datatype Answer =
    | HaveProof(proof: Proof)
    | NotYet
    | PermanentFailure(error: RunnerError)
    | Retrying(error: RunnerError)
    | FinishedInvalid
    | QueueInvalid
    | UnknownProver

  /** Constants of the process: the hash, and two environment variables. */
  datatype Env = Env(sha: Bytes -> Digest, encryptionKey: EncryptionKey, proverType: string)

  /** The status a new job starts in, chosen by SP1_PROVER. */
  function InitialStatus(proverType: string): Option<JobStatus> {
    if proverType == "network" then Some(RemoteZkProofRequesting)
    else if proverType == "cuda" || proverType == "cpu" || proverType == "mock" then Some(LocalZkProofPending)
    else None
  }

  /** The job the submit handler builds for a blob's data. */
  function JobFor(env: Env, data: Bytes): Job {
    Job(Anchor(env.sha(data)), Input(data))
  }
}
