/** The tenant's enterprise profile: partial updates of its basic details
    under the rule that a speciality belongs to the tenant's activity domain,
    logo and cover images behind type and size gates, and documents scoped to
    the tenant. Images and documents live in the object store; the outcome of
    each store call and the upload time are parameters. */
module Enterprise {
  import opened Common
  import opened Strings
  import opened Schema
  import opened Storage

  datatype UpdateProfileDto = UpdateProfileDto(
    name: Option<string>,
    siret: Option<string>,
    kbis: Option<string>,
    activityDomainId: Option<string>,
    specialityId: Option<string>)

  function DomainWithId(domains: seq<ActivityDomain>, id: string): Option<nat> {
    FindFirst(domains, (d: ActivityDomain) => d.id == id)
  }

  function SpecialityWithId(specialities: seq<Speciality>, id: string): Option<nat> {
    FindFirst(specialities, (s: Speciality) => s.id == id)
  }

  function CategoryWithId(categories: seq<DocumentCategory>, id: string): Option<nat> {
    FindFirst(categories, (c: DocumentCategory) => c.id == id)
  }

  /** A tenant's speciality, when it has one, is a speciality of the tenant's
      activity domain. */
  predicate SpecialityConsistent(t: Tenant, specialities: seq<Speciality>) {
    t.specialityId.Some? ==>
      var k := SpecialityWithId(specialities, t.specialityId.value);
      k.Some? && t.activityDomainId == Some(specialities[k.value].activityDomainId)
  }

  const ACTIVITY_DOMAIN_NOT_FOUND: Failure := HttpError(NOT_FOUND, "Activity domain not found")
  const SPECIALITY_NOT_IN_SELECTED_DOMAIN: Failure :=
    HttpError(BAD_REQUEST, "Speciality does not belong to the selected activity domain")
  const SPECIALITY_NOT_FOUND: Failure := HttpError(NOT_FOUND, "Speciality not found")
  const SPECIALITY_NOT_IN_TENANT_DOMAIN: Failure :=
    HttpError(BAD_REQUEST, "Speciality does not belong to tenant's activity domain")
  const TENANT_NOT_FOUND: Failure := HttpError(NOT_FOUND, "Tenant not found")

  /** The speciality a domain change leaves on the tenant: a truthy
      speciality must belong to the new domain; without one the speciality is
      cleared. */
  function DomainChange(domains: seq<ActivityDomain>, specialities: seq<Speciality>, domainId: string,
                        specialityId: Option<string>): (r: Result<Option<string>>)
    ensures DomainWithId(domains, domainId).None? ==> r == Err(ACTIVITY_DOMAIN_NOT_FOUND)
    ensures DomainWithId(domains, domainId).Some? && !Truthy(specialityId) ==> r == Ok(None)
    ensures DomainWithId(domains, domainId).Some? && Truthy(specialityId) ==>
              var k := SpecialityWithId(specialities, specialityId.value);
              if k.Some? && specialities[k.value].activityDomainId == domainId then r == Ok(specialityId)
              else r == Err(SPECIALITY_NOT_IN_SELECTED_DOMAIN)
  {
    if DomainWithId(domains, domainId).None? then Err(ACTIVITY_DOMAIN_NOT_FOUND)
    else if Truthy(specialityId) then
      var k := SpecialityWithId(specialities, specialityId.value);
      if k.None? || specialities[k.value].activityDomainId != domainId then Err(SPECIALITY_NOT_IN_SELECTED_DOMAIN)
      else Ok(specialityId)
    else Ok(None)
  }

  /** The new speciality when only a speciality is supplied: it must exist and
      belong to the tenant's current domain. */
  function SpecialityChange(t: Tenant, specialities: seq<Speciality>, specialityId: string): (r: Result<Option<string>>)
    ensures SpecialityWithId(specialities, specialityId).None? ==> r == Err(SPECIALITY_NOT_FOUND)
    ensures SpecialityWithId(specialities, specialityId).Some? ==>
              var s := specialities[SpecialityWithId(specialities, specialityId).value];
              if t.activityDomainId == Some(s.activityDomainId) then r == Ok(Some(specialityId))
              else r == Err(SPECIALITY_NOT_IN_TENANT_DOMAIN)
  {
    var k := SpecialityWithId(specialities, specialityId);
    if k.None? then Err(SPECIALITY_NOT_FOUND)
    else if t.activityDomainId != Some(specialities[k.value].activityDomainId) then Err(SPECIALITY_NOT_IN_TENANT_DOMAIN)
    else Ok(Some(specialityId))
  }

  /** The tenant row `updateProfile` writes: every supplied basic field is
      replaced, every other field keeps its value, and the domain and
      speciality change only by the rules above. */
  function ApplyProfileUpdate(t: Tenant, domains: seq<ActivityDomain>, specialities: seq<Speciality>,
                              dto: UpdateProfileDto): (r: Result<Tenant>)
    ensures r.Ok? ==>
              && r.value.name == (if dto.name.Some? then dto.name.value else t.name)
              && r.value.siret == (if dto.siret.Some? then dto.siret.value else t.siret)
              && r.value.kbis == (if dto.kbis.Some? then dto.kbis.value else t.kbis)
              && r.value.(name := t.name, siret := t.siret, kbis := t.kbis,
                          activityDomainId := t.activityDomainId, specialityId := t.specialityId) == t
    ensures dto.activityDomainId.Some? ==>
              match DomainChange(domains, specialities, dto.activityDomainId.value, dto.specialityId)
              case Err(f) => r == Err(f)
              case Ok(s) => r.Ok? && r.value.activityDomainId == dto.activityDomainId && r.value.specialityId == s
    ensures dto.activityDomainId.None? && dto.specialityId.Some? ==>
              match SpecialityChange(t, specialities, dto.specialityId.value)
              case Err(f) => r == Err(f)
              case Ok(s) => r.Ok? && r.value.activityDomainId == t.activityDomainId && r.value.specialityId == s
    ensures dto.activityDomainId.None? && dto.specialityId.None? ==>
              r.Ok? && r.value.activityDomainId == t.activityDomainId && r.value.specialityId == t.specialityId
  {
    var basic := t.(name := if dto.name.Some? then dto.name.value else t.name,
                    siret := if dto.siret.Some? then dto.siret.value else t.siret,
                    kbis := if dto.kbis.Some? then dto.kbis.value else t.kbis);
    if dto.activityDomainId.Some? then
      match DomainChange(domains, specialities, dto.activityDomainId.value, dto.specialityId)
      case Err(f) => Err(f)
      case Ok(s) => Ok(basic.(activityDomainId := dto.activityDomainId, specialityId := s))
    else if dto.specialityId.Some? then
      match SpecialityChange(t, specialities, dto.specialityId.value)
      case Err(f) => Err(f)
      case Ok(s) => Ok(basic.(specialityId := s))
    else Ok(basic)
  }

  /** An accepted profile update keeps the tenant's speciality within its
      activity domain. */
  lemma ProfileUpdateKeepsSpecialityConsistent(t: Tenant, domains: seq<ActivityDomain>, specialities: seq<Speciality>,
                                              dto: UpdateProfileDto)
    requires SpecialityConsistent(t, specialities)
    ensures ApplyProfileUpdate(t, domains, specialities, dto).Ok? ==>
              SpecialityConsistent(ApplyProfileUpdate(t, domains, specialities, dto).value, specialities)
  {
  }

  /** An empty update writes the tenant back unchanged. */
  lemma EmptyProfileUpdateChangesNothing(t: Tenant, domains: seq<ActivityDomain>, specialities: seq<Speciality>)
    ensures ApplyProfileUpdate(t, domains, specialities, UpdateProfileDto(None, None, None, None, None)) == Ok(t)
  {
  }

  /** A new domain without a speciality clears the old one, even when the old
      speciality belongs to the new domain. */
  lemma DomainWithoutSpecialityClears(t: Tenant, domains: seq<ActivityDomain>, specialities: seq<Speciality>, domainId: string)
    requires DomainWithId(domains, domainId).Some?
    ensures ApplyProfileUpdate(t, domains, specialities, UpdateProfileDto(None, None, None, Some(domainId), None))
            == Ok(t.(activityDomainId := Some(domainId), specialityId := None))
    ensures ApplyProfileUpdate(t, domains, specialities, UpdateProfileDto(None, None, None, Some(domainId), Some("")))
            == Ok(t.(activityDomainId := Some(domainId), specialityId := None))
  {
  }

  /** The two images a tenant carries, each with its own folder, size limit
      and URL field. */
  datatype ImageSlot = Logo | Cover {
    function Folder(): string {
      match this
      case Logo => "logos"
      case Cover => "covers"
    }

    function MaxBytes(): nat {
      match this
      case Logo => 2 * 1024 * 1024
      case Cover => 5 * 1024 * 1024
    }

    function TooLarge(): Failure {
      match this
      case Logo => HttpError(BAD_REQUEST, "File size exceeds 2MB limit for logo.")
      case Cover => HttpError(BAD_REQUEST, "File size exceeds 5MB limit for cover image.")
    }

    function Url(t: Tenant): Option<string> {
      match this
      case Logo => t.logoUrl
      case Cover => t.coverImageUrl
    }

    /** The tenant with this slot's URL set to `url` and every other field
        as it was. */
    function WithUrl(t: Tenant, url: Option<string>): (t': Tenant)
      ensures Url(t') == url
      ensures (match this case Logo => t'.(logoUrl := t.logoUrl) case Cover => t'.(coverImageUrl := t.coverImageUrl)) == t
    {
      match this
      case Logo => t.(logoUrl := url)
      case Cover => t.(coverImageUrl := url)
    }
  }

  const IMAGE_TYPES: seq<string> := ["image/jpeg", "image/jpg", "image/png", "image/webp"]
  const INVALID_IMAGE_TYPE: Failure :=
    HttpError(BAD_REQUEST, "Invalid file type. Only JPEG, PNG, and WebP images are allowed.")
  const DOCUMENT_MAX_BYTES: nat := 10 * 1024 * 1024
  const DOCUMENT_TOO_LARGE: Failure := HttpError(BAD_REQUEST, "File size exceeds 10MB limit for documents.")
  const CATEGORY_NOT_FOUND: Failure := HttpError(NOT_FOUND, "Document category not found")
  const DOCUMENT_NOT_FOUND: Failure := HttpError(NOT_FOUND, "Document not found")

  /** The gates an image passes before anything is touched. */
  function ImageGate(slot: ImageSlot, file: UploadedFile): (f: Option<Failure>)
    ensures f.None? <==> file.mimetype in {"image/jpeg", "image/jpg", "image/png", "image/webp"} && file.size <= slot.MaxBytes()
    ensures !ValidateFileType(file, IMAGE_TYPES) ==> f == Some(INVALID_IMAGE_TYPE)
    ensures ValidateFileType(file, IMAGE_TYPES) && file.size > slot.MaxBytes() ==> f == Some(slot.TooLarge())
  {
    if !ValidateFileType(file, IMAGE_TYPES) then Some(INVALID_IMAGE_TYPE)
    else if !ValidateFileSize(file, slot.MaxBytes()) then Some(slot.TooLarge())
    else None
  }

  /** The store key an image replacement deletes: the folder, the tenant id
      and the last `/`-segment of the current URL, when there is a URL whose
      last segment is not empty. */
  function OldImageKey(slot: ImageSlot, tenantId: string, url: Option<string>): (key: Option<string>)
    ensures key.Some? <==> Truthy(url) && LastSegment(url.value) != ""
    ensures key.Some? ==> key.value == slot.Folder() + "/" + tenantId + "/" + LastSegment(url.value)
  {
    if Truthy(url) && LastSegment(url.value) != "" then Some(slot.Folder() + "/" + tenantId + "/" + LastSegment(url.value))
    else None
  }

  /** The key an image upload writes to: bucket and folder are both the
      slot's folder. */
  function NewImageKey(slot: ImageSlot, tenantId: string, timestamp: nat, file: UploadedFile): (key: string)
    ensures key == slot.Folder() + "/" + slot.Folder() + "/" + tenantId + "/" + StoredName(timestamp, file.originalname)
    ensures LastSegment(key) == StoredName(timestamp, file.originalname)
  {
    FileKey(slot.Folder(), Some(slot.Folder()), tenantId, timestamp, file.originalname)
  }

  /** The key a replacement deletes is never the key the previous upload
      wrote: the upload puts the folder in twice, the deletion once, so the
      old image stays in the store. */
  lemma ReplacementMissesUploadedImage(slot: ImageSlot, cfg: StorageConfig, tenantId: string, timestamp: nat,
                                       file: UploadedFile)
    ensures var key := NewImageKey(slot, tenantId, timestamp, file);
            OldImageKey(slot, tenantId, Some(FileUrl(cfg, key))).Some? &&
            OldImageKey(slot, tenantId, Some(FileUrl(cfg, key))).value != key
  {
    var name := StoredName(timestamp, file.originalname);
    var key := NewImageKey(slot, tenantId, timestamp, file);
    var url := FileUrl(cfg, key);
    FileUrlEndsWithStoredName(cfg, slot.Folder(), Some(slot.Folder()), tenantId, timestamp, file.originalname);
    OldKeyOfNamedUrl(slot, tenantId, url, name);
    FolderOnceIsShorter(slot.Folder(), tenantId, name);
  }

  lemma OldKeyOfNamedUrl(slot: ImageSlot, tenantId: string, url: string, name: string)
    requires LastSegment(url) == name && name != ""
    ensures OldImageKey(slot, tenantId, Some(url)) == Some(slot.Folder() + "/" + tenantId + "/" + name)
  {
  }

  lemma FolderOnceIsShorter(folder: string, tenantId: string, name: string)
    requires folder != ""
    ensures folder + "/" + tenantId + "/" + name != folder + "/" + folder + "/" + tenantId + "/" + name
  {
    assert |folder + "/" + tenantId + "/" + name| < |folder + "/" + folder + "/" + tenantId + "/" + name|;
  }

  /** The store after a delete that may have failed: a failure leaves it as
      it was. */
  function AfterDelete(objects: map<string, StoredObject>, key: Option<string>, failure: Option<string>)
    : (m: map<string, StoredObject>)
    ensures forall k :: k in m ==> k in objects && m[k] == objects[k]
    ensures forall k :: k in objects && (key.None? || k != key.value) ==> k in m
    ensures key.Some? && failure.None? ==> key.value !in m
    ensures failure.Some? ==> m == objects
  {
    if key.Some? && failure.None? then objects - {key.value} else objects
  }

  /** What an image upload answers. */
  datatype ImageAnswer = ImageAnswer(url: string, key: string)

  /** What a document upload answers. */
  datatype DocumentAnswer = DocumentAnswer(
    id: string,
    name: string,
    url: string,
    size: nat,
    mimeType: string,
    category: DocumentCategory)

  /** The checks a document passes before anything is touched, in their
      order: the tenant, the category, a size of at most 10 MiB (any type is
      accepted). */
  function DocumentGate(tenants: seq<Tenant>, categories: seq<DocumentCategory>, tenantId: string, categoryId: string,
                        file: UploadedFile): (f: Option<Failure>)
    ensures TenantWithId(tenants, tenantId).None? ==> f == Some(TENANT_NOT_FOUND)
    ensures TenantWithId(tenants, tenantId).Some? && CategoryWithId(categories, categoryId).None? ==>
              f == Some(CATEGORY_NOT_FOUND)
    ensures (TenantWithId(tenants, tenantId).Some? && CategoryWithId(categories, categoryId).Some? &&
             file.size > DOCUMENT_MAX_BYTES) ==> f == Some(DOCUMENT_TOO_LARGE)
    ensures f.None? <==>
              TenantWithId(tenants, tenantId).Some? && CategoryWithId(categories, categoryId).Some? &&
              file.size <= DOCUMENT_MAX_BYTES
  {
    if TenantWithId(tenants, tenantId).None? then Some(TENANT_NOT_FOUND)
    else if CategoryWithId(categories, categoryId).None? then Some(CATEGORY_NOT_FOUND)
    else if !ValidateFileSize(file, DOCUMENT_MAX_BYTES) then Some(DOCUMENT_TOO_LARGE)
    else None
  }

  predicate UniqueDocumentIds(documents: seq<Document>) {
    forall i, j :: 0 <= i < j < |documents| ==> documents[i].id != documents[j].id
  }

  /** `findFirst({ where: { id, tenantId } })`. */
  function TenantDocument(documents: seq<Document>, tenantId: string, documentId: string): (r: Option<nat>)
    ensures r.Some? ==> r.value < |documents| && documents[r.value].id == documentId && documents[r.value].tenantId == tenantId
    ensures r.None? <==> forall j :: 0 <= j < |documents| ==> documents[j].id != documentId || documents[j].tenantId != tenantId
  {
    FindFirst(documents, (d: Document) => d.id == documentId && d.tenantId == tenantId)
  }

  /** The key a document deletion removes from the store. */
  function DocumentKey(tenantId: string, fileUrl: string): (key: Option<string>)
    ensures key.Some? <==> LastSegment(fileUrl) != ""
    ensures key.Some? ==> key.value == "documents/" + tenantId + "/" + LastSegment(fileUrl)
  {
    if LastSegment(fileUrl) != "" then Some("documents/" + tenantId + "/" + LastSegment(fileUrl)) else None
  }

  /** Deleting a document never removes the object its upload stored: the
      upload puts `documents` in twice, the deletion once. */
  lemma DocumentDeletionMissesUpload(cfg: StorageConfig, tenantId: string, timestamp: nat, file: UploadedFile)
    ensures var key := FileKey("documents", Some("documents"), tenantId, timestamp, file.originalname);
            DocumentKey(tenantId, FileUrl(cfg, key)).Some? &&
            DocumentKey(tenantId, FileUrl(cfg, key)).value != key
  {
    var name := StoredName(timestamp, file.originalname);
    FileUrlEndsWithStoredName(cfg, "documents", Some("documents"), tenantId, timestamp, file.originalname);
    FolderOnceIsShorter("documents", tenantId, name);
  }

  /** `seq` without the element at `j`. */
  function RemoveAt<T>(s: seq<T>, j: nat): (r: seq<T>)
    requires j < |s|
    ensures |r| == |s| - 1
    ensures forall k :: 0 <= k < j ==> r[k] == s[k]
    ensures forall k :: j <= k < |r| ==> r[k] == s[k + 1]
  {
    s[..j] + s[j + 1..]
  }

  class EnterpriseService {
    var tenants: seq<Tenant>
    var activityDomains: seq<ActivityDomain>
    var specialities: seq<Speciality>
    var categories: seq<DocumentCategory>
    var documents: seq<Document>
    const storage: StorageService

    /** Tenant and document ids are unique, and every tenant's speciality
        belongs to its domain. */
    ghost predicate Valid()
      reads this
    {
      && UniqueTenantIds(tenants)
      && UniqueDocumentIds(documents)
      && forall i :: 0 <= i < |tenants| ==> SpecialityConsistent(tenants[i], specialities)
    }

    constructor (tenants: seq<Tenant>, activityDomains: seq<ActivityDomain>, specialities: seq<Speciality>,
                 categories: seq<DocumentCategory>, documents: seq<Document>, storage: StorageService)
      requires UniqueTenantIds(tenants) && UniqueDocumentIds(documents)
      requires forall i :: 0 <= i < |tenants| ==> SpecialityConsistent(tenants[i], specialities)
      ensures Valid()
      ensures this.tenants == tenants && this.activityDomains == activityDomains && this.specialities == specialities
      ensures this.categories == categories && this.documents == documents && this.storage == storage
    {
      this.tenants := tenants;
      this.activityDomains := activityDomains;
      this.specialities := specialities;
      this.categories := categories;
      this.documents := documents;
      this.storage := storage;
    }

    /** `updateProfile`: a missing tenant is "not found"; otherwise the
        tenant's row becomes `ApplyProfileUpdate` of it, or nothing changes
        when that fails. */
    method UpdateProfile(tenantId: string, dto: UpdateProfileDto) returns (r: Result<Tenant>)
      requires Valid()
      modifies this`tenants
      ensures Valid()
      ensures TenantWithId(old(tenants), tenantId).None? ==> r == Err(TENANT_NOT_FOUND) && tenants == old(tenants)
      ensures TenantWithId(old(tenants), tenantId).Some? ==>
                var i := TenantWithId(old(tenants), tenantId).value;
                match ApplyProfileUpdate(old(tenants)[i], activityDomains, specialities, dto)
                case Err(f) => r == Err(f) && tenants == old(tenants)
                case Ok(t) => r == Ok(t) && tenants == old(tenants)[i := t]
    {
      var found := TenantWithId(tenants, tenantId);
      if found.None? {
        return Err(TENANT_NOT_FOUND);
      }
      var i := found.value;
      var tenant := tenants[i];
      // Apply each supplied field, then settle domain and speciality.
      var updated := tenant;
      if dto.name.Some? {
        updated := updated.(name := dto.name.value);
      }
      if dto.siret.Some? {
        updated := updated.(siret := dto.siret.value);
      }
      if dto.kbis.Some? {
        updated := updated.(kbis := dto.kbis.value);
      }
      if dto.activityDomainId.Some? {
        var change := DomainChange(activityDomains, specialities, dto.activityDomainId.value, dto.specialityId);
        if change.Err? {
          return Err(change.failure);
        }
        updated := updated.(activityDomainId := dto.activityDomainId, specialityId := change.value);
      } else if dto.specialityId.Some? {
        var change := SpecialityChange(tenant, specialities, dto.specialityId.value);
        if change.Err? {
          return Err(change.failure);
        }
        updated := updated.(specialityId := change.value);
      }
      ProfileUpdateKeepsSpecialityConsistent(tenant, activityDomains, specialities, dto);
      assert ApplyProfileUpdate(tenant, activityDomains, specialities, dto) == Ok(updated);
      ReplaceTenantKeepsInvariant(tenants, i, updated, specialities);
      tenants := tenants[i := updated];
      r := Ok(updated);
    }

    /** `uploadLogo` and `uploadCover`: the tenant must exist and the image
        pass the gates, or nothing changes; then the old image's key (see
        `OldImageKey`) is deleted with any failure ignored, the new image is
        put, and only when the put succeeds does the tenant's URL field take
        the new URL. */
    method UploadImage(slot: ImageSlot, tenantId: string, file: UploadedFile, timestamp: nat,
                       deleteFailure: Option<string>, putFailure: Option<string>) returns (r: Result<ImageAnswer>)
      requires Valid()
      modifies this`tenants, storage`objects
      ensures Valid()
      ensures TenantWithId(old(tenants), tenantId).None? ==>
                r == Err(TENANT_NOT_FOUND) && tenants == old(tenants) && storage.objects == old(storage.objects)
      ensures TenantWithId(old(tenants), tenantId).Some? && ImageGate(slot, file).Some? ==>
                r == Err(ImageGate(slot, file).value) && tenants == old(tenants) && storage.objects == old(storage.objects)
      ensures TenantWithId(old(tenants), tenantId).Some? && ImageGate(slot, file).None? ==>
                ImageStored(slot, TenantWithId(old(tenants), tenantId).value, tenantId, file, timestamp, deleteFailure,
                            putFailure, r, old(tenants), old(storage.objects), tenants, storage.objects)
    {
      var found := TenantWithId(tenants, tenantId);
      if found.None? {
        return Err(TENANT_NOT_FOUND);
      }
      var gate := ImageGate(slot, file);
      if gate.Some? {
        return Err(gate.value);
      }
      r := StoreImage(slot, found.value, tenantId, file, timestamp, deleteFailure, putFailure);
    }

    /** The outcome of an image upload that passed its gates, for tenant row
        `i`: the current image's key, when there is one, is deleted first (a
        failed delete is ignored); a failed put then reports 500 and keeps the
        row; otherwise the row points at the new file's URL. */
    ghost predicate ImageStored(slot: ImageSlot, i: nat, tenantId: string, file: UploadedFile, timestamp: nat,
                                deleteFailure: Option<string>, putFailure: Option<string>, r: Result<ImageAnswer>,
                                tenants0: seq<Tenant>, objects0: map<string, StoredObject>,
                                tenants1: seq<Tenant>, objects1: map<string, StoredObject>)
      requires i < |tenants0|
    {
      var cleared := AfterDelete(objects0, OldImageKey(slot, tenantId, slot.Url(tenants0[i])), deleteFailure);
      var key := NewImageKey(slot, tenantId, timestamp, file);
      var url := FileUrl(storage.cfg, key);
      && (putFailure.Some? ==>
            r == Err(HttpError(INTERNAL_SERVER_ERROR, "Failed to upload file: " + putFailure.value))
            && tenants1 == tenants0 && objects1 == cleared)
      && (putFailure.None? ==>
            r == Ok(ImageAnswer(url, key))
            && tenants1 == tenants0[i := slot.WithUrl(tenants0[i], Some(url))]
            && objects1 == cleared[key := StoredObject(tenantId, file.originalname, file.mimetype, file.size)])
    }

    /** The delete of a replaced image, whose failure is ignored. */
    method DeleteImageFile(key: Option<string>, deleteFailure: Option<string>)
      modifies storage`objects
      ensures storage.objects == AfterDelete(old(storage.objects), key, deleteFailure)
    {
      if key.Some? {
        var ignored := storage.DeleteFile(key.value, deleteFailure);
      }
    }

    method StoreImage(slot: ImageSlot, i: nat, tenantId: string, file: UploadedFile, timestamp: nat,
                      deleteFailure: Option<string>, putFailure: Option<string>) returns (r: Result<ImageAnswer>)
      requires Valid() && i < |tenants|
      modifies this`tenants, storage`objects
      ensures Valid()
      ensures ImageStored(slot, i, tenantId, file, timestamp, deleteFailure, putFailure, r,
                          old(tenants), old(storage.objects), tenants, storage.objects)
    {
      var tenant := tenants[i];
      DeleteImageFile(OldImageKey(slot, tenantId, slot.Url(tenant)), deleteFailure);
      var upload := storage.UploadFile(file, slot.Folder(), Some(slot.Folder()), tenantId, timestamp, putFailure);
      if upload.Err? {
        return Err(upload.failure);
      }
      var updated := slot.WithUrl(tenant, Some(upload.value.url));
      ReplaceTenantKeepsInvariant(tenants, i, updated, specialities);
      tenants := tenants[i := updated];
      r := Ok(ImageAnswer(upload.value.url, upload.value.key));
    }

    /** `uploadDocument`: tenant, category and a size of at most 10 MiB are
        checked before anything is touched; after a successful put exactly
        one document row is added, pointing at the stored file. */
    method UploadDocument(tenantId: string, userId: string, file: UploadedFile, name: string, categoryId: string,
                          timestamp: nat, putFailure: Option<string>, newDocumentId: string) returns (r: Result<DocumentAnswer>)
      requires Valid()
      requires forall d :: 0 <= d < |documents| ==> documents[d].id != newDocumentId
      modifies this`documents, storage`objects
      ensures Valid()
      ensures DocumentGate(tenants, categories, tenantId, categoryId, file).Some? ==>
                && r == Err(DocumentGate(tenants, categories, tenantId, categoryId, file).value)
                && documents == old(documents) && storage.objects == old(storage.objects)
      ensures DocumentGate(tenants, categories, tenantId, categoryId, file).None? ==>
                var key := FileKey("documents", Some("documents"), tenantId, timestamp, file.originalname);
                var url := FileUrl(storage.cfg, key);
                var doc := Document(newDocumentId, tenantId, name, categoryId, url, file.size, file.mimetype, userId);
                && (putFailure.Some? ==>
                      r == Err(HttpError(INTERNAL_SERVER_ERROR, "Failed to upload file: " + putFailure.value))
                      && documents == old(documents) && storage.objects == old(storage.objects))
                && (putFailure.None? ==>
                      r == Ok(DocumentAnswer(newDocumentId, name, url, file.size, file.mimetype,
                                             categories[CategoryWithId(categories, categoryId).value]))
                      && documents == old(documents) + [doc]
                      && storage.objects == old(storage.objects)[key := StoredObject(tenantId, file.originalname, file.mimetype, file.size)])
    {
      var gate := DocumentGate(tenants, categories, tenantId, categoryId, file);
      if gate.Some? {
        return Err(gate.value);
      }
      var c := CategoryWithId(categories, categoryId);
      var upload := storage.UploadFile(file, "documents", Some("documents"), tenantId, timestamp, putFailure);
      if upload.Err? {
        return Err(upload.failure);
      }
      var doc := Document(newDocumentId, tenantId, name, categoryId, upload.value.url, file.size, file.mimetype, userId);
      AppendDocumentKeepsIdsUnique(documents, doc);
      documents := documents + [doc];
      r := Ok(DocumentAnswer(doc.id, doc.name, doc.fileUrl, doc.fileSize, doc.mimeType, categories[c.value]));
    }

    /** `deleteDocument`: only a document of this tenant with this id is found;
        otherwise "not found" and nothing changes. A found document's file is
        deleted from the store (a failure is ignored) and its row removed; no
        other row, in particular no other tenant's, is touched. */
    method DeleteDocument(tenantId: string, documentId: string, deleteFailure: Option<string>) returns (r: Result<bool>)
      requires Valid()
      modifies this`documents, storage`objects
      ensures Valid()
      ensures TenantDocument(old(documents), tenantId, documentId).None? ==>
                r == Err(DOCUMENT_NOT_FOUND) && documents == old(documents) && storage.objects == old(storage.objects)
      ensures TenantDocument(old(documents), tenantId, documentId).Some? ==>
                var j := TenantDocument(old(documents), tenantId, documentId).value;
                && r == Ok(true)
                && documents == RemoveAt(old(documents), j)
                && storage.objects == AfterDelete(old(storage.objects), DocumentKey(tenantId, old(documents)[j].fileUrl), deleteFailure)
      ensures forall k :: 0 <= k < |old(documents)| && old(documents)[k].tenantId != tenantId ==> old(documents)[k] in documents
    {
      var found := TenantDocument(documents, tenantId, documentId);
      if found.None? {
        return Err(DOCUMENT_NOT_FOUND);
      }
      var j := found.value;
      var key := DocumentKey(tenantId, documents[j].fileUrl);
      if key.Some? {
        var ignored := storage.DeleteFile(key.value, deleteFailure);
      }
      RemoveAtKeepsOthers(documents, j);
      documents := RemoveAt(documents, j);
      r := Ok(true);
    }

    /** `deleteLogo` and `deleteCover`: on an existing tenant the image's key
        is deleted from the store (a failure is ignored) and the URL field is
        cleared whatever the store answered. */
    method DeleteImage(slot: ImageSlot, tenantId: string, deleteFailure: Option<string>) returns (r: Result<bool>)
      requires Valid()
      modifies this`tenants, storage`objects
      ensures Valid()
      ensures TenantWithId(old(tenants), tenantId).None? ==>
                r == Err(TENANT_NOT_FOUND) && tenants == old(tenants) && storage.objects == old(storage.objects)
      ensures TenantWithId(old(tenants), tenantId).Some? ==>
                var i := TenantWithId(old(tenants), tenantId).value;
                && r == Ok(true)
                && tenants == old(tenants)[i := slot.WithUrl(old(tenants)[i], None)]
                && storage.objects == AfterDelete(old(storage.objects), OldImageKey(slot, tenantId, slot.Url(old(tenants)[i])), deleteFailure)
    {
      var found := TenantWithId(tenants, tenantId);
      if found.None? {
        return Err(TENANT_NOT_FOUND);
      }
      var i := found.value;
      var tenant := tenants[i];
      var key := OldImageKey(slot, tenantId, slot.Url(tenant));
      if key.Some? {
        var ignored := storage.DeleteFile(key.value, deleteFailure);
      }
      var updated := slot.WithUrl(tenant, None);
      ReplaceTenantKeepsInvariant(tenants, i, updated, specialities);
      tenants := tenants[i := updated];
      r := Ok(true);
    }
  }

  /** Rewriting one tenant row under its own id, with a consistent
      speciality, keeps ids unique and every tenant consistent. */
  lemma ReplaceTenantKeepsInvariant(tenants: seq<Tenant>, i: nat, t: Tenant, specialities: seq<Speciality>)
    requires i < |tenants| && t.id == tenants[i].id && SpecialityConsistent(t, specialities)
    requires UniqueTenantIds(tenants)
    requires forall k :: 0 <= k < |tenants| ==> SpecialityConsistent(tenants[k], specialities)
    ensures var r := tenants[i := t];
            UniqueTenantIds(r) && forall k :: 0 <= k < |r| ==> SpecialityConsistent(r[k], specialities)
  {
  }

  /** A row with a fresh id keeps document ids unique. */
  lemma AppendDocumentKeepsIdsUnique(documents: seq<Document>, doc: Document)
    requires UniqueDocumentIds(documents)
    requires forall d :: 0 <= d < |documents| ==> documents[d].id != doc.id
    ensures UniqueDocumentIds(documents + [doc])
  {
  }

  /** Removing one row keeps every other row and keeps ids unique. */
  lemma RemoveAtKeepsOthers(documents: seq<Document>, j: nat)
    requires j < |documents|
    ensures forall k :: 0 <= k < |documents| && k != j ==> documents[k] in RemoveAt(documents, j)
    ensures UniqueDocumentIds(documents) ==> UniqueDocumentIds(RemoveAt(documents, j))
  {
    var r := RemoveAt(documents, j);
    forall k | 0 <= k < |documents| && k != j ensures documents[k] in r {
      if k < j {
        assert r[k] == documents[k];
      } else {
        assert r[k - 1] == documents[k];
      }
    }
  }

  /** One component of a geocoded address. */
  datatype AddressComponent = AddressComponent(longName: string, shortName: string, types: seq<string>)

  /** `components.find((c) => c.types.includes(type))`. */
  function ComponentOfType(components: seq<AddressComponent>, kind: string): Option<nat> {
    FindFirst(components, (c: AddressComponent) => kind in c.types)
  }

  /** The `long_name` of the first component of a type, or "". */
  function LongNameOfType(components: seq<AddressComponent>, kind: string): (name: string)
    ensures (forall k :: 0 <= k < |components| ==> kind !in components[k].types) ==> name == ""
    ensures forall k :: 0 <= k < |components| && kind in components[k].types &&
                        (forall j :: 0 <= j < k ==> kind !in components[j].types) ==>
                          name == components[k].longName
  {
    var k := ComponentOfType(components, kind);
    if k.Some? then components[k.value].longName else ""
  }

  /** `extractCity`: the first locality, else the first district of the
      second administrative level; a locality is taken even when its name is
      empty. */
  function ExtractCity(components: seq<AddressComponent>): (city: string)
    ensures ComponentOfType(components, "locality").Some? ==>
              city == components[ComponentOfType(components, "locality").value].longName
    ensures ComponentOfType(components, "locality").None? ==>
              city == LongNameOfType(components, "administrative_area_level_2")
  {
    var k := ComponentOfType(components, "locality");
    if k.Some? then components[k.value].longName else LongNameOfType(components, "administrative_area_level_2")
  }

  /** `extractPostalCode`: the name of the first postal-code component, or
      "" when there is none. */
  function ExtractPostalCode(components: seq<AddressComponent>): (code: string)
    ensures ComponentOfType(components, "postal_code").None? ==> code == ""
    ensures ComponentOfType(components, "postal_code").Some? ==>
              code == components[ComponentOfType(components, "postal_code").value].longName
  {
    LongNameOfType(components, "postal_code")
  }

  /** `extractCountry`: the name of the first country component, or "" when
      there is none. */
  function ExtractCountry(components: seq<AddressComponent>): (country: string)
    ensures ComponentOfType(components, "country").None? ==> country == ""
    ensures ComponentOfType(components, "country").Some? ==>
              country == components[ComponentOfType(components, "country").value].longName
  {
    LongNameOfType(components, "country")
  }

  /** A locality with an empty name hides a named district. */
  lemma EmptyLocalityHidesDistrict(district: string)
    ensures ExtractCity([AddressComponent("", "", ["locality"]),
                         AddressComponent(district, district, ["administrative_area_level_2"])]) == ""
  {
    var cs := [AddressComponent("", "", ["locality"]), AddressComponent(district, district, ["administrative_area_level_2"])];
    assert "locality" in cs[0].types;
  }

  /** A component of another type in front changes no extractor's answer. */
  lemma LongNameSkipsOtherType(components: seq<AddressComponent>, other: AddressComponent, kind: string)
    requires kind !in other.types
    ensures LongNameOfType([other] + components, kind) == LongNameOfType(components, kind)
  {
    assert ([other] + components)[1..] == components;
  }

  /** The postal-code and country extractors read only the component of their
      own type. */
  lemma ExtractorsReadTheirType(components: seq<AddressComponent>, other: AddressComponent)
    requires "postal_code" !in other.types && "country" !in other.types
    ensures ExtractPostalCode([other] + components) == ExtractPostalCode(components)
    ensures ExtractCountry([other] + components) == ExtractCountry(components)
  {
    LongNameSkipsOtherType(components, other, "postal_code");
    LongNameSkipsOtherType(components, other, "country");
  }
}
