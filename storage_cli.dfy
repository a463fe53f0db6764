/**
 The storage console application: eleven commands, each with a handler
 that reads its parsed arguments and options and either calls exactly one
 downstream storage operation, throws a validation error before any call,
 or (in one case of requester-pays) does nothing.

 A handler is modelled as a function from the values it reads to an
 `Outcome`. Optional arguments and value-taking options are string-or-null
 (`Option<string>`), flag options are booleans, required arguments are
 strings. Every branch tests PHP truthiness (`Truthy`), except the one
 `is_null` test of the encryption command (`IsNull`).
 */
module StorageCli {
  import opened PhpValues
  import opened StorageActions

  /** One invocation of a command, with the values its handler reads. */
  datatype Command =
    | BucketAclCmd(bucket: string, entity: Option<string>, role: Option<string>, create: bool, delete: bool)
    | BucketDefaultAclCmd(bucket: string, entity: Option<string>, role: Option<string>, create: bool, delete: bool)
    | BucketLabelsCmd(bucket: string, labelName: Option<string>, value: Option<string>, remove: bool)
    | BucketsCmd(bucketArg: Option<string>, create: bool, delete: bool)
    | EncryptionCmd(bucketArg: Option<string>, objectArg: Option<string>, uploadFrom: Option<string>,
                    downloadTo: Option<string>, key: Option<string>, rotateKey: Option<string>, generateKey: bool)
    | IamCmd(bucket: string, role: Option<string>, addMember: Option<string>, removeMember: Option<string>)
    | ObjectAclCmd(bucket: string, objectName: string, entity: Option<string>, role: Option<string>, create: bool, delete: bool)
    | ObjectsCmd(bucket: string, objectArg: Option<string>, uploadFrom: Option<string>, downloadTo: Option<string>,
                 moveTo: Option<string>, copyTo: Option<string>, makePublic: bool, delete: bool, prefix: Option<string>)
    | RequesterPaysCmd(project: string, bucket: string, objectArg: Option<string>, downloadTo: Option<string>,
                       enable: bool, disable: bool, checkStatus: bool)
    | EnableDefaultKmsKeyCmd(project: string, bucket: string, kmsKeyName: string)
    | UploadWithKmsKeyCmd(project: string, bucket: string, objectName: string, uploadFile: string, kmsKeyName: string)

  /** What a handler does: one downstream call, a thrown validation error, or nothing. */
  datatype Outcome = Call(action: Action) | Error(msg: string) | NoOp

  /** The default of the `--role` option of the three ACL commands. */
  const DefaultRole := "READER"

  const LabelNeedsValueOrRemove := "You must provide --value or --remove when including a label name."
  const BucketNeedsCreateOrDelete := "Supply --create or --delete with bucket name"
  const RotateNeedsKey := "--key is required when using --rotate-key"
  const EncryptionNeedsAction := "Supply --rotate-key, --upload-from or --download-to"
  const EncryptionNeedsTarget := "Supply a bucket and object OR --generate-key"
  const IamNeedsRole := "Must provide role as an option."

  /** The name under which the command is registered. */
  function Name(c: Command): string {
    match c
    case BucketAclCmd(_, _, _, _, _) => "bucket-acl"
    case BucketDefaultAclCmd(_, _, _, _, _) => "bucket-default-acl"
    case BucketLabelsCmd(_, _, _, _) => "bucket-labels"
    case BucketsCmd(_, _, _) => "buckets"
    case EncryptionCmd(_, _, _, _, _, _, _) => "encryption"
    case IamCmd(_, _, _, _) => "iam"
    case ObjectAclCmd(_, _, _, _, _, _) => "object-acl"
    case ObjectsCmd(_, _, _, _, _, _, _, _, _) => "objects"
    case RequesterPaysCmd(_, _, _, _, _, _, _) => "requester-pays"
    case EnableDefaultKmsKeyCmd(_, _, _) => "enable-default-kms-key"
    case UploadWithKmsKeyCmd(_, _, _, _, _) => "upload-with-kms-key"
  }

  /**
   The argument-validation rules, stated on their own: the invocations a
   handler refuses with an error before making any call.
   */
  predicate Rejected(c: Command) {
    match c
    case BucketLabelsCmd(_, labelName, value, remove) =>
      Truthy(labelName) && !Truthy(value) && !remove
    case BucketsCmd(bucketArg, create, delete) =>
      Truthy(bucketArg) && !create && !delete
    case EncryptionCmd(bucketArg, objectArg, uploadFrom, downloadTo, key, rotateKey, generateKey) =>
      !generateKey &&
      (!Truthy(bucketArg) || !Truthy(objectArg) ||
       (!Truthy(uploadFrom) && !Truthy(downloadTo) && (!Truthy(rotateKey) || IsNull(key))))
    case IamCmd(_, role, addMember, removeMember) =>
      (Truthy(addMember) || Truthy(removeMember)) && !Truthy(role)
    case _ => false
  }

  /** The invocations whose handler neither calls anything nor throws. */
  predicate Idle(c: Command) {
    match c
    case RequesterPaysCmd(_, _, objectArg, downloadTo, enable, disable, checkStatus) =>
      if Truthy(objectArg) then !Truthy(downloadTo) else !enable && !disable && !checkStatus
    case _ => false
  }

  /**
   The decision shared by the three ACL commands: without a truthy
   --entity the whole ACL is read, whatever --create and --delete say;
   with one, --create wins over --delete, and neither reads the entity's
   entry. A created entry gets --role, READER when the option is absent.
   */
  function SelectAclOp(entity: Option<string>, role: Option<string>, create: bool, delete: bool): (op: AclOp)
    ensures op.GetAcl? <==> !Truthy(entity)
    ensures op.AddAcl? <==> Truthy(entity) && create
    ensures op.DeleteAcl? <==> Truthy(entity) && !create && delete
    ensures op.GetAclForEntity? <==> Truthy(entity) && !create && !delete
    ensures !op.GetAcl? ==> op.entity == entity.value
    ensures op.AddAcl? ==> op.role == OrDefault(role, DefaultRole)
    ensures op.AddAcl? && IsNull(role) ==> op.role == "READER"
    ensures AclAdmissible(op)
  {
    if Truthy(entity) then
      if create then AddAcl(entity.value, OrDefault(role, DefaultRole))
      else if delete then DeleteAcl(entity.value)
      else GetAclForEntity(entity.value)
    else
      GetAcl
  }

  /** bucket-acl: read, add or remove an entity in a bucket's ACL. */
  function HandleBucketAcl(bucket: string, entity: Option<string>, role: Option<string>, create: bool, delete: bool): (r: Outcome)
    ensures r.Call? && r.action.BucketAcl?
    ensures r.action.bucket == bucket && r.action.aclOp == SelectAclOp(entity, role, create, delete)
    ensures r.Call? ==> Admissible(r.action) && Owner(r.action) == "bucket-acl"
  {
    Call(BucketAcl(bucket, SelectAclOp(entity, role, create, delete)))
  }

  /** bucket-default-acl: read, add or remove an entity in a bucket's default object ACL. */
  function HandleBucketDefaultAcl(bucket: string, entity: Option<string>, role: Option<string>, create: bool, delete: bool): (r: Outcome)
    ensures r.Call? && r.action.BucketDefaultAcl?
    ensures r.action.bucket == bucket && r.action.aclOp == SelectAclOp(entity, role, create, delete)
    ensures r.Call? ==> Admissible(r.action) && Owner(r.action) == "bucket-default-acl"
  {
    Call(BucketDefaultAcl(bucket, SelectAclOp(entity, role, create, delete)))
  }

  /** bucket-labels: list a bucket's labels, or set or remove one label. */
  function HandleBucketLabels(bucket: string, labelName: Option<string>, value: Option<string>, remove: bool): (r: Outcome)
    ensures r == Call(BucketLabels(bucket, GetLabels)) <==> !Truthy(labelName)
    ensures !r.NoOp?
    ensures r.Error? <==> Truthy(labelName) && !Truthy(value) && !remove
    ensures r.Error? ==> r.msg == LabelNeedsValueOrRemove
    ensures Truthy(labelName) && Truthy(value) ==>
              r == Call(BucketLabels(bucket, AddLabel(labelName.value, value.value)))
    ensures Truthy(labelName) && !Truthy(value) && remove ==>
              r == Call(BucketLabels(bucket, RemoveLabel(labelName.value)))
    ensures r.Call? ==> Admissible(r.action) && Owner(r.action) == "bucket-labels"
  {
    if Truthy(labelName) then
      if Truthy(value) then Call(BucketLabels(bucket, AddLabel(labelName.value, value.value)))
      else if remove then Call(BucketLabels(bucket, RemoveLabel(labelName.value)))
      else Error(LabelNeedsValueOrRemove)
    else
      Call(BucketLabels(bucket, GetLabels))
  }

  /** buckets: list all buckets, or create or delete the named one. */
  function HandleBuckets(bucketArg: Option<string>, create: bool, delete: bool): (r: Outcome)
    ensures r == Call(Buckets(ListBuckets)) <==> !Truthy(bucketArg)
    ensures !r.NoOp?
    ensures r.Error? <==> Truthy(bucketArg) && !create && !delete
    ensures r.Error? ==> r.msg == BucketNeedsCreateOrDelete
    ensures Truthy(bucketArg) && create ==> r == Call(Buckets(CreateBucket(bucketArg.value)))
    ensures Truthy(bucketArg) && !create && delete ==> r == Call(Buckets(DeleteBucket(bucketArg.value)))
    ensures r.Call? ==> Admissible(r.action) && Owner(r.action) == "buckets"
  {
    if Truthy(bucketArg) then
      if create then Call(Buckets(CreateBucket(bucketArg.value)))
      else if delete then Call(Buckets(DeleteBucket(bucketArg.value)))
      else Error(BucketNeedsCreateOrDelete)
    else
      Call(Buckets(ListBuckets))
  }

  /**
   encryption: generate a key, or upload, download or re-key an object
   encrypted with a customer-supplied key.
   */
  function HandleEncryption(bucketArg: Option<string>, objectArg: Option<string>, uploadFrom: Option<string>,
                            downloadTo: Option<string>, key: Option<string>, rotateKey: Option<string>,
                            generateKey: bool): (r: Outcome)
    ensures r == Call(Encryption(GenerateKey)) <==> generateKey
    ensures !r.NoOp?
    ensures r.Error? <==>
              !generateKey &&
              (!Truthy(bucketArg) || !Truthy(objectArg) ||
               (!Truthy(uploadFrom) && !Truthy(downloadTo) && (!Truthy(rotateKey) || IsNull(key))))
    ensures r == Error(EncryptionNeedsTarget) <==> !generateKey && !(Truthy(bucketArg) && Truthy(objectArg))
    ensures r == Error(EncryptionNeedsAction) <==>
              !generateKey && Truthy(bucketArg) && Truthy(objectArg) &&
              !Truthy(uploadFrom) && !Truthy(downloadTo) && !Truthy(rotateKey)
    ensures r == Error(RotateNeedsKey) <==>
              !generateKey && Truthy(bucketArg) && Truthy(objectArg) &&
              !Truthy(uploadFrom) && !Truthy(downloadTo) && Truthy(rotateKey) && IsNull(key)
    ensures !generateKey && Truthy(bucketArg) && Truthy(objectArg) && Truthy(uploadFrom) ==>
              r == Call(Encryption(UploadEncrypted(bucketArg.value, objectArg.value, uploadFrom.value, key)))
    ensures !generateKey && Truthy(bucketArg) && Truthy(objectArg) && !Truthy(uploadFrom) && Truthy(downloadTo) ==>
              r == Call(Encryption(DownloadEncrypted(bucketArg.value, objectArg.value, downloadTo.value, key)))
    ensures !generateKey && Truthy(bucketArg) && Truthy(objectArg) &&
            !Truthy(uploadFrom) && !Truthy(downloadTo) && Truthy(rotateKey) && !IsNull(key) ==>
              r == Call(Encryption(RotateKey(bucketArg.value, objectArg.value, key.value, rotateKey.value)))
    ensures r.Call? ==> Admissible(r.action) && Owner(r.action) == "encryption"
  {
    if generateKey then
      Call(Encryption(GenerateKey))
    else if Truthy(bucketArg) && Truthy(objectArg) then
      if Truthy(uploadFrom) then
        Call(Encryption(UploadEncrypted(bucketArg.value, objectArg.value, uploadFrom.value, key)))
      else if Truthy(downloadTo) then
        Call(Encryption(DownloadEncrypted(bucketArg.value, objectArg.value, downloadTo.value, key)))
      else if Truthy(rotateKey) then
        if IsNull(key) then Error(RotateNeedsKey)
        else Call(Encryption(RotateKey(bucketArg.value, objectArg.value, key.value, rotateKey.value)))
      else
        Error(EncryptionNeedsAction)
    else
      Error(EncryptionNeedsTarget)
  }

  /** iam: view a bucket's IAM members, or add or remove a member in a role. */
  function HandleIam(bucket: string, role: Option<string>, addMember: Option<string>, removeMember: Option<string>): (r: Outcome)
    ensures r == Call(Iam(bucket, ViewMembers)) <==> !Truthy(addMember) && !Truthy(removeMember)
    ensures !r.NoOp?
    ensures r.Error? <==> (Truthy(addMember) || Truthy(removeMember)) && !Truthy(role)
    ensures r.Error? ==> r.msg == IamNeedsRole
    ensures Truthy(addMember) && Truthy(role) ==> r == Call(Iam(bucket, AddMember(role.value, addMember.value)))
    ensures !Truthy(addMember) && Truthy(removeMember) && Truthy(role) ==>
              r == Call(Iam(bucket, RemoveMember(role.value, removeMember.value)))
    ensures r.Call? ==> Admissible(r.action) && Owner(r.action) == "iam"
  {
    if Truthy(addMember) then
      if !Truthy(role) then Error(IamNeedsRole)
      else Call(Iam(bucket, AddMember(role.value, addMember.value)))
    else if Truthy(removeMember) then
      if !Truthy(role) then Error(IamNeedsRole)
      else Call(Iam(bucket, RemoveMember(role.value, removeMember.value)))
    else
      Call(Iam(bucket, ViewMembers))
  }

  /** object-acl: read, add or remove an entity in an object's ACL. */
  function HandleObjectAcl(bucket: string, objectName: string, entity: Option<string>, role: Option<string>,
                           create: bool, delete: bool): (r: Outcome)
    ensures r.Call? && r.action.ObjectAcl?
    ensures r.action.bucket == bucket && r.action.objectName == objectName
    ensures r.action.aclOp == SelectAclOp(entity, role, create, delete)
    ensures r.Call? ==> Admissible(r.action) && Owner(r.action) == "object-acl"
  {
    Call(ObjectAcl(bucket, objectName, SelectAclOp(entity, role, create, delete)))
  }

  /**
   The operation the objects command applies to a named object: the first
   of --upload-from, --download-to, --move-to and --copy-to that is
   truthy, then --make-public, then --delete, and otherwise the object's
   metadata. A move or copy keeps the object in its own bucket.
   */
  function SelectObjectOp(bucket: string, objectName: string, uploadFrom: Option<string>, downloadTo: Option<string>,
                          moveTo: Option<string>, copyTo: Option<string>, makePublic: bool, delete: bool): (op: ObjectOp)
    ensures op.Upload? <==> Truthy(uploadFrom)
    ensures op.Download? <==> !Truthy(uploadFrom) && Truthy(downloadTo)
    ensures op.Move? <==> !Truthy(uploadFrom) && !Truthy(downloadTo) && Truthy(moveTo)
    ensures op.Copy? <==> !Truthy(uploadFrom) && !Truthy(downloadTo) && !Truthy(moveTo) && Truthy(copyTo)
    ensures op.MakePublic? <==>
              !Truthy(uploadFrom) && !Truthy(downloadTo) && !Truthy(moveTo) && !Truthy(copyTo) && makePublic
    ensures op.Delete? <==>
              !Truthy(uploadFrom) && !Truthy(downloadTo) && !Truthy(moveTo) && !Truthy(copyTo) && !makePublic && delete
    ensures !op.ListWithPrefix? && !op.List? && op.objectName == objectName
    ensures op.Upload? ==> op.source == uploadFrom.value
    ensures op.Download? ==> op.destination == downloadTo.value
    ensures op.Move? ==> op.newBucket == bucket && op.newObject == moveTo.value
    ensures op.Copy? ==> op.newBucket == bucket && op.newObject == copyTo.value
    ensures TruthyString(objectName) ==> ObjectAdmissible(bucket, op)
  {
    if Truthy(uploadFrom) then Upload(objectName, uploadFrom.value)
    else if Truthy(downloadTo) then Download(objectName, downloadTo.value)
    else if Truthy(moveTo) then Move(objectName, bucket, moveTo.value)
    else if Truthy(copyTo) then Copy(objectName, bucket, copyTo.value)
    else if makePublic then MakePublic(objectName)
    else if delete then Delete(objectName)
    else Metadata(objectName)
  }

  /**
   objects: list a bucket's objects (by prefix when a truthy --prefix is
   given), or apply one operation to a named object. It never throws.
   */
  function HandleObjects(bucket: string, objectArg: Option<string>, uploadFrom: Option<string>,
                         downloadTo: Option<string>, moveTo: Option<string>, copyTo: Option<string>,
                         makePublic: bool, delete: bool, prefix: Option<string>): (r: Outcome)
    ensures r.Call? && r.action.Objects? && r.action.bucket == bucket
    ensures Truthy(objectArg) ==>
              r.action.objectOp == SelectObjectOp(bucket, objectArg.value, uploadFrom, downloadTo, moveTo, copyTo, makePublic, delete)
    ensures !Truthy(objectArg) && Truthy(prefix) ==> r.action.objectOp == ListWithPrefix(prefix.value)
    ensures !Truthy(objectArg) && !Truthy(prefix) ==> r.action.objectOp == List
    ensures r.Call? ==> Admissible(r.action) && Owner(r.action) == "objects"
  {
    if Truthy(objectArg) then
      Call(Objects(bucket, SelectObjectOp(bucket, objectArg.value, uploadFrom, downloadTo, moveTo, copyTo, makePublic, delete)))
    else if Truthy(prefix) then
      Call(Objects(bucket, ListWithPrefix(prefix.value)))
    else
      Call(Objects(bucket, List))
  }

  /**
   requester-pays: download an object billed to a project, or enable,
   disable or query requester-pays billing on a bucket. It never throws;
   with a truthy object and no truthy destination it does nothing, and
   the three flags are then ignored.
   */
  function HandleRequesterPays(project: string, bucket: string, objectArg: Option<string>, downloadTo: Option<string>,
                               enable: bool, disable: bool, checkStatus: bool): (r: Outcome)
    ensures !r.Error?
    ensures r.NoOp? <==> if Truthy(objectArg) then !Truthy(downloadTo) else !enable && !disable && !checkStatus
    ensures r.Call? ==> r.action.RequesterPays? && r.action.project == project && r.action.bucket == bucket
    ensures Truthy(objectArg) && Truthy(downloadTo) ==>
              r == Call(RequesterPays(project, bucket, DownloadFile(objectArg.value, downloadTo.value)))
    ensures r.Call? ==> Admissible(r.action) && Owner(r.action) == "requester-pays"
  {
    if Truthy(objectArg) then
      if Truthy(downloadTo) then Call(RequesterPays(project, bucket, DownloadFile(objectArg.value, downloadTo.value)))
      else NoOp
    else if enable then Call(RequesterPays(project, bucket, Enable))
    else if disable then Call(RequesterPays(project, bucket, Disable))
    else if checkStatus then Call(RequesterPays(project, bucket, GetStatus))
    else NoOp
  }

  /**
   The default the requester-pays command registers for its download-to
   argument. The registration passes null where the argument mode goes,
   the mode constant where the description goes, and the description
   where the default goes, so an absent download-to reads as this text.
   */
  const DownloadToRegisteredDefault := "Path to store the dowloaded file"

  /**
   The download-to value the requester-pays handler receives under the
   registration as written: the command line's value when one is given,
   the registered default otherwise. It is never null.
   */
  function RegisteredDownloadTo(downloadTo: Option<string>): (v: Option<string>)
    ensures v.Some?
    ensures downloadTo.Some? ==> v == downloadTo
    ensures downloadTo.None? ==> v.value == DownloadToRegisteredDefault && Truthy(v)
  {
    Some(OrDefault(downloadTo, DownloadToRegisteredDefault))
  }

  /** enable-default-kms-key: set a bucket's default KMS key; always exactly one call. */
  function HandleEnableDefaultKmsKey(project: string, bucket: string, kmsKeyName: string): (r: Outcome)
    ensures r == Call(EnableDefaultKmsKey(project, bucket, kmsKeyName))
    ensures r.Call? ==> Admissible(r.action) && Owner(r.action) == "enable-default-kms-key"
  {
    Call(EnableDefaultKmsKey(project, bucket, kmsKeyName))
  }

  /** upload-with-kms-key: upload a file encrypted with a named KMS key; always exactly one call. */
  function HandleUploadWithKmsKey(project: string, bucket: string, objectName: string, uploadFile: string,
                                  kmsKeyName: string): (r: Outcome)
    ensures r == Call(UploadWithKmsKey(project, bucket, objectName, uploadFile, kmsKeyName))
    ensures r.Call? ==> Admissible(r.action) && Owner(r.action) == "upload-with-kms-key"
  {
    Call(UploadWithKmsKey(project, bucket, objectName, uploadFile, kmsKeyName))
  }

  /**
   Running a command: its handler either throws exactly when the
   validation rules reject the invocation, does nothing exactly in the
   idle requester-pays cases, or makes one call that belongs to this
   command and is admissible.
   */
  function Dispatch(c: Command): (r: Outcome)
    ensures r.Error? <==> Rejected(c)
    ensures r.NoOp? <==> Idle(c)
    ensures r.Call? ==> Admissible(r.action) && Owner(r.action) == Name(c)
  {
    match c
    case BucketAclCmd(bucket, entity, role, create, delete) =>
      HandleBucketAcl(bucket, entity, role, create, delete)
    case BucketDefaultAclCmd(bucket, entity, role, create, delete) =>
      HandleBucketDefaultAcl(bucket, entity, role, create, delete)
    case BucketLabelsCmd(bucket, labelName, value, remove) =>
      HandleBucketLabels(bucket, labelName, value, remove)
    case BucketsCmd(bucketArg, create, delete) =>
      HandleBuckets(bucketArg, create, delete)
    case EncryptionCmd(bucketArg, objectArg, uploadFrom, downloadTo, key, rotateKey, generateKey) =>
      HandleEncryption(bucketArg, objectArg, uploadFrom, downloadTo, key, rotateKey, generateKey)
    case IamCmd(bucket, role, addMember, removeMember) =>
      HandleIam(bucket, role, addMember, removeMember)
    case ObjectAclCmd(bucket, objectName, entity, role, create, delete) =>
      HandleObjectAcl(bucket, objectName, entity, role, create, delete)
    case ObjectsCmd(bucket, objectArg, uploadFrom, downloadTo, moveTo, copyTo, makePublic, delete, prefix) =>
      HandleObjects(bucket, objectArg, uploadFrom, downloadTo, moveTo, copyTo, makePublic, delete, prefix)
    case RequesterPaysCmd(project, bucket, objectArg, downloadTo, enable, disable, checkStatus) =>
      HandleRequesterPays(project, bucket, objectArg, downloadTo, enable, disable, checkStatus)
    case EnableDefaultKmsKeyCmd(project, bucket, kmsKeyName) =>
      HandleEnableDefaultKmsKey(project, bucket, kmsKeyName)
    case UploadWithKmsKeyCmd(project, bucket, objectName, uploadFile, kmsKeyName) =>
      HandleUploadWithKmsKey(project, bucket, objectName, uploadFile, kmsKeyName)
  }
}
