/**
  The product service's mapper between the API record and the stored entity
  (ProductMapper). The entity's `id` and `version` belong to the database and
  are never taken from a DTO; a DTO's `serviceAddress` is never stored.
 */
module ProductMapper {
  import opened Api

  /** A stored product; `id` and `version` are assigned by the database. */
  datatype ProductEntity = ProductEntity(
    id: Option<string>, version: Option<int>, productId: int, name: string, weight: int)

  function DtoToEntity(dto: Product): (entity: ProductEntity)
    ensures entity.productId == dto.productId && entity.name == dto.name && entity.weight == dto.weight
    ensures entity.id == None && entity.version == None
  {
    ProductEntity(None, None, dto.productId, dto.name, dto.weight)
  }

  function EntityToDto(entity: ProductEntity): (dto: Product)
    ensures dto.productId == entity.productId && dto.name == entity.name && dto.weight == entity.weight
    ensures dto.serviceAddress == None
  {
    Product(entity.productId, entity.name, entity.weight, None)
  }

  /** A DTO comes back from storage unchanged except for its address, which is
      lost; a DTO without an address comes back unchanged. */
  lemma DtoRoundTrip(dto: Product)
    ensures EntityToDto(DtoToEntity(dto)) == dto.(serviceAddress := None)
    ensures dto.serviceAddress == None ==> EntityToDto(DtoToEntity(dto)) == dto
  {
  }

  /** An entity read out and written back loses only its database identity. */
  lemma EntityRoundTrip(entity: ProductEntity)
    ensures DtoToEntity(EntityToDto(entity)) == entity.(id := None, version := None)
  {
  }
}
