/**
 Properties of the storage console handlers that relate several
 invocations, or relate the handlers to independent definitions: the
 set of calls the commands can make, and the precedence of their
 `if / elseif` chains.
 */
module StorageCliProperties {
  import opened PhpValues
  import opened Precedence
  import opened StorageActions
  import opened StorageCli

  /** The --entity of an ACL command line that asks for `op`. */
  function AclEntity(op: AclOp): Option<string> {
    if op.GetAcl? then None else Some(op.entity)
  }

  /** The --role of an ACL command line that asks for `op`. */
  function AclRole(op: AclOp): Option<string> {
    if op.AddAcl? then Some(op.role) else None
  }

  /**
   A command line that asks for the given operation: the operation's own
   command, with exactly the options that select it.
   */
  function Invocation(a: Action): Command {
    match a
    case BucketAcl(b, op) => BucketAclCmd(b, AclEntity(op), AclRole(op), op.AddAcl?, op.DeleteAcl?)
    case BucketDefaultAcl(b, op) => BucketDefaultAclCmd(b, AclEntity(op), AclRole(op), op.AddAcl?, op.DeleteAcl?)
    case ObjectAcl(b, o, op) => ObjectAclCmd(b, o, AclEntity(op), AclRole(op), op.AddAcl?, op.DeleteAcl?)
    case BucketLabels(b, op) =>
      (match op
      case AddLabel(l, v) => BucketLabelsCmd(b, Some(l), Some(v), false)
      case RemoveLabel(l) => BucketLabelsCmd(b, Some(l), None, true)
      case GetLabels => BucketLabelsCmd(b, None, None, false))
    case Buckets(op) =>
      (match op
      case CreateBucket(b) => BucketsCmd(Some(b), true, false)
      case DeleteBucket(b) => BucketsCmd(Some(b), false, true)
      case ListBuckets => BucketsCmd(None, false, false))
    case Encryption(op) =>
      (match op
      case GenerateKey => EncryptionCmd(None, None, None, None, None, None, true)
      case UploadEncrypted(b, o, src, k) => EncryptionCmd(Some(b), Some(o), Some(src), None, k, None, false)
      case DownloadEncrypted(b, o, dst, k) => EncryptionCmd(Some(b), Some(o), None, Some(dst), k, None, false)
      case RotateKey(b, o, k, nk) => EncryptionCmd(Some(b), Some(o), None, None, Some(k), Some(nk), false))
    case Iam(b, op) =>
      (match op
      case AddMember(role, m) => IamCmd(b, Some(role), Some(m), None)
      case RemoveMember(role, m) => IamCmd(b, Some(role), None, Some(m))
      case ViewMembers => IamCmd(b, None, None, None))
    case Objects(b, op) =>
      (match op
      case Upload(o, src) => ObjectsCmd(b, Some(o), Some(src), None, None, None, false, false, None)
      case Download(o, dst) => ObjectsCmd(b, Some(o), None, Some(dst), None, None, false, false, None)
      case Move(o, _, n) => ObjectsCmd(b, Some(o), None, None, Some(n), None, false, false, None)
      case Copy(o, _, n) => ObjectsCmd(b, Some(o), None, None, None, Some(n), false, false, None)
      case MakePublic(o) => ObjectsCmd(b, Some(o), None, None, None, None, true, false, None)
      case Delete(o) => ObjectsCmd(b, Some(o), None, None, None, None, false, true, None)
      case Metadata(o) => ObjectsCmd(b, Some(o), None, None, None, None, false, false, None)
      case ListWithPrefix(p) => ObjectsCmd(b, None, None, None, None, None, false, false, Some(p))
      case List => ObjectsCmd(b, None, None, None, None, None, false, false, None))
    case RequesterPays(p, b, op) =>
      (match op
      case DownloadFile(o, dst) => RequesterPaysCmd(p, b, Some(o), Some(dst), false, false, false)
      case Enable => RequesterPaysCmd(p, b, None, None, true, false, false)
      case Disable => RequesterPaysCmd(p, b, None, None, false, true, false)
      case GetStatus => RequesterPaysCmd(p, b, None, None, false, false, true))
    case EnableDefaultKmsKey(p, b, k) => EnableDefaultKmsKeyCmd(p, b, k)
    case UploadWithKmsKey(p, b, o, f, k) => UploadWithKmsKeyCmd(p, b, o, f, k)
  }

  /** The ACL decision is inverted by the options `Invocation` chooses for it. */
  lemma AclRoundTrip(op: AclOp)
    requires AclAdmissible(op)
    ensures SelectAclOp(AclEntity(op), AclRole(op), op.AddAcl?, op.DeleteAcl?) == op
  {
  }

  /**
   Round trip: running the canonical command line of an admissible
   operation makes exactly that call.
   */
  lemma InvocationRoundTrip(a: Action)
    requires Admissible(a)
    ensures Dispatch(Invocation(a)) == Call(a)
    ensures Name(Invocation(a)) == Owner(a)
  {
    match a
    case BucketAcl(_, op) => AclRoundTrip(op);
    case BucketDefaultAcl(_, op) => AclRoundTrip(op);
    case ObjectAcl(_, _, op) => AclRoundTrip(op);
    case BucketLabels(bucket, op) => LabelsRoundTrip(bucket, op);
    case Buckets(op) => BucketsRoundTrip(op);
    case Encryption(op) => EncryptionRoundTrip(op);
    case Iam(bucket, op) => IamRoundTrip(bucket, op);
    case Objects(bucket, op) => ObjectsRoundTrip(bucket, op);
    case RequesterPays(project, bucket, op) => RequesterPaysRoundTrip(project, bucket, op);
    case EnableDefaultKmsKey(_, _, _) =>
    case UploadWithKmsKey(_, _, _, _, _) =>
  }

  /*
   The round trip for each command family with more than one operation;
   the ACL families go through `AclRoundTrip` and the two KMS commands
   need no help.
   */

  lemma LabelsRoundTrip(bucket: string, op: LabelOp)
    requires LabelAdmissible(op)
    ensures Dispatch(Invocation(BucketLabels(bucket, op))) == Call(BucketLabels(bucket, op))
  {
  }

  lemma BucketsRoundTrip(op: BucketOp)
    requires BucketAdmissible(op)
    ensures Dispatch(Invocation(Buckets(op))) == Call(Buckets(op))
  {
  }

  lemma EncryptionRoundTrip(op: EncryptionOp)
    requires EncryptionAdmissible(op)
    ensures Dispatch(Invocation(Encryption(op))) == Call(Encryption(op))
  {
  }

  lemma IamRoundTrip(bucket: string, op: IamOp)
    requires IamAdmissible(op)
    ensures Dispatch(Invocation(Iam(bucket, op))) == Call(Iam(bucket, op))
  {
  }

  lemma ObjectsRoundTrip(bucket: string, op: ObjectOp)
    requires ObjectAdmissible(bucket, op)
    ensures Dispatch(Invocation(Objects(bucket, op))) == Call(Objects(bucket, op))
  {
  }

  lemma RequesterPaysRoundTrip(project: string, bucket: string, op: PaysOp)
    requires PaysAdmissible(op)
    ensures Dispatch(Invocation(RequesterPays(project, bucket, op))) == Call(RequesterPays(project, bucket, op))
  {
  }

  /** The calls the commands can make are exactly the admissible operations. */
  lemma CallsAreExactlyAdmissible(a: Action)
    ensures (exists c :: Dispatch(c) == Call(a)) <==> Admissible(a)
  {
    if Admissible(a) {
      InvocationRoundTrip(a);
    }
  }

  /*
   Precedence. Each lemma lists a handler's branches in source order and
   shows that the handler takes the branch of the first condition that
   holds, the last branch when none does. An option value is read through
   `StringOf` only in the branch its own truthy condition selects. The
   order of the objects command's seven branches is stated by the
   contract of `SelectObjectOp`.
   */

  /** The three ACL commands with an entity: --create, then --delete, then reading the entity's entry. */
  lemma AclPrecedence(entity: Option<string>, role: Option<string>, create: bool, delete: bool)
    requires Truthy(entity)
    ensures SelectAclOp(entity, role, create, delete) ==
            [AddAcl(entity.value, OrDefault(role, DefaultRole)),
             DeleteAcl(entity.value),
             GetAclForEntity(entity.value)][FirstSet([create, delete])]
  {
  }

  /** bucket-labels with a label: --value, then --remove, then the error. */
  lemma BucketLabelsPrecedence(bucket: string, labelName: Option<string>, value: Option<string>, remove: bool)
    requires Truthy(labelName)
    ensures HandleBucketLabels(bucket, labelName, value, remove) ==
            [Call(BucketLabels(bucket, AddLabel(labelName.value, StringOf(value)))),
             Call(BucketLabels(bucket, RemoveLabel(labelName.value))),
             Error(LabelNeedsValueOrRemove)][FirstSet([Truthy(value), remove])]
  {
  }

  /** buckets with a bucket name: --create, then --delete, then the error. */
  lemma BucketsPrecedence(bucketArg: Option<string>, create: bool, delete: bool)
    requires Truthy(bucketArg)
    ensures HandleBuckets(bucketArg, create, delete) ==
            [Call(Buckets(CreateBucket(bucketArg.value))),
             Call(Buckets(DeleteBucket(bucketArg.value))),
             Error(BucketNeedsCreateOrDelete)][FirstSet([create, delete])]
  {
  }

  /**
   encryption with a bucket and an object and no --generate-key:
   --upload-from, then --download-to, then --rotate-key, then the error.
   */
  lemma EncryptionPrecedence(bucketArg: Option<string>, objectArg: Option<string>, uploadFrom: Option<string>,
                             downloadTo: Option<string>, key: Option<string>, rotateKey: Option<string>)
    requires Truthy(bucketArg) && Truthy(objectArg)
    ensures HandleEncryption(bucketArg, objectArg, uploadFrom, downloadTo, key, rotateKey, false) ==
            [Call(Encryption(UploadEncrypted(bucketArg.value, objectArg.value, StringOf(uploadFrom), key))),
             Call(Encryption(DownloadEncrypted(bucketArg.value, objectArg.value, StringOf(downloadTo), key))),
             if IsNull(key) then Error(RotateNeedsKey)
             else Call(Encryption(RotateKey(bucketArg.value, objectArg.value, StringOf(key), StringOf(rotateKey)))),
             Error(EncryptionNeedsAction)][FirstSet([Truthy(uploadFrom), Truthy(downloadTo), Truthy(rotateKey)])]
  {
    var flags := [Truthy(uploadFrom), Truthy(downloadTo), Truthy(rotateKey)];
    if flags[0] { FirstSetUnique(flags, 0); }
    else if flags[1] { FirstSetUnique(flags, 1); }
    else if flags[2] { FirstSetUnique(flags, 2); }
    else { FirstSetUnique(flags, 3); }
  }

  /** iam: --add-member, then --remove-member, then viewing the members. */
  lemma IamPrecedence(bucket: string, role: Option<string>, addMember: Option<string>, removeMember: Option<string>)
    ensures HandleIam(bucket, role, addMember, removeMember) ==
            [if Truthy(role) then Call(Iam(bucket, AddMember(StringOf(role), StringOf(addMember))))
             else Error(IamNeedsRole),
             if Truthy(role) then Call(Iam(bucket, RemoveMember(StringOf(role), StringOf(removeMember))))
             else Error(IamNeedsRole),
             Call(Iam(bucket, ViewMembers))][FirstSet([Truthy(addMember), Truthy(removeMember)])]
  {
  }

  /** requester-pays without an object: --enable, then --disable, then --check-status, then nothing. */
  lemma RequesterPaysPrecedence(project: string, bucket: string, objectArg: Option<string>, downloadTo: Option<string>,
                                enable: bool, disable: bool, checkStatus: bool)
    requires !Truthy(objectArg)
    ensures HandleRequesterPays(project, bucket, objectArg, downloadTo, enable, disable, checkStatus) ==
            [Call(RequesterPays(project, bucket, Enable)),
             Call(RequesterPays(project, bucket, Disable)),
             Call(RequesterPays(project, bucket, GetStatus)),
             NoOp][FirstSet([enable, disable, checkStatus])]
  {
    var flags := [enable, disable, checkStatus];
    if flags[0] { FirstSetUnique(flags, 0); }
    else if flags[1] { FirstSetUnique(flags, 1); }
    else if flags[2] { FirstSetUnique(flags, 2); }
    else { FirstSetUnique(flags, 3); }
  }

  /** requester-pays with an object: --enable, --disable and --check-status play no part. */
  lemma RequesterPaysObjectIgnoresFlags(project: string, bucket: string, objectArg: Option<string>,
                                        downloadTo: Option<string>, enable: bool, disable: bool, checkStatus: bool)
    requires Truthy(objectArg)
    ensures HandleRequesterPays(project, bucket, objectArg, downloadTo, enable, disable, checkStatus) ==
            HandleRequesterPays(project, bucket, objectArg, downloadTo, false, false, false)
  {
  }

  /*
   The download-to argument of requester-pays. `Dispatch` reads it as an
   optional argument without a default, null when absent, which is what
   the handler's own test for it expects; as registered, an absent
   download-to reads as the default text instead.
   */

  /** Intended: an object without a destination is a no-op, whatever the flags. */
  lemma ObjectWithoutDestinationIsIdle(project: string, bucket: string, objectName: string,
                                       enable: bool, disable: bool, checkStatus: bool)
    requires TruthyString(objectName)
    ensures Dispatch(RequesterPaysCmd(project, bucket, Some(objectName), None, enable, disable, checkStatus)) == NoOp
  {
  }

  /**
   As registered: the same command line downloads the object to a file
   named after the argument's help text instead of doing nothing.
   */
  lemma RegisteredDefaultDownloads(project: string, bucket: string, objectName: string,
                                   enable: bool, disable: bool, checkStatus: bool)
    requires TruthyString(objectName)
    ensures Dispatch(RequesterPaysCmd(project, bucket, Some(objectName), RegisteredDownloadTo(None),
                                      enable, disable, checkStatus)) ==
            Call(RequesterPays(project, bucket, DownloadFile(objectName, DownloadToRegisteredDefault)))
    ensures Dispatch(RequesterPaysCmd(project, bucket, Some(objectName), RegisteredDownloadTo(None),
                                      enable, disable, checkStatus)) !=
            Dispatch(RequesterPaysCmd(project, bucket, Some(objectName), None, enable, disable, checkStatus))
  {
  }
}
