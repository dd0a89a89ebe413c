/**
  The recommendation service's mapper between the API record and the stored
  entity (RecommendationMapper), one element and whole lists at a time.
 */
module RecommendationMapper {
  import opened Api

  /** A stored recommendation; `id` and `version` are assigned by the database. */
  datatype RecommendationEntity = RecommendationEntity(
    id: Option<string>, version: Option<int>,
    productId: int, recommendationId: int, author: string, rating: int, content: string)

  function DtoToEntity(dto: Recommendation): (entity: RecommendationEntity)
    ensures entity.productId == dto.productId && entity.recommendationId == dto.recommendationId
    ensures entity.author == dto.author && entity.rating == dto.rating && entity.content == dto.content
    ensures entity.id == None && entity.version == None
  {
    RecommendationEntity(None, None, dto.productId, dto.recommendationId, dto.author, dto.rating, dto.content)
  }

  function EntityToDto(entity: RecommendationEntity): (dto: Recommendation)
    ensures dto.productId == entity.productId && dto.recommendationId == entity.recommendationId
    ensures dto.author == entity.author && dto.rating == entity.rating && dto.content == entity.content
    ensures dto.serviceAddress == None
  {
    Recommendation(entity.productId, entity.recommendationId, entity.author, entity.rating, entity.content, None)
  }

  /** Maps a list element by element, in order. */
  function DtoListToEntityList(dtoList: seq<Recommendation>): (entityList: seq<RecommendationEntity>)
    ensures |entityList| == |dtoList|
    ensures forall i :: 0 <= i < |dtoList| ==> entityList[i] == DtoToEntity(dtoList[i])
  {
    if dtoList == [] then []
    else DtoListToEntityList(dtoList[..|dtoList| - 1]) + [DtoToEntity(dtoList[|dtoList| - 1])]
  }

  /** Maps a list element by element, in order. */
  function EntityListToDtoList(entityList: seq<RecommendationEntity>): (dtoList: seq<Recommendation>)
    ensures |dtoList| == |entityList|
    ensures forall i :: 0 <= i < |entityList| ==> dtoList[i] == EntityToDto(entityList[i])
  {
    if entityList == [] then []
    else EntityListToDtoList(entityList[..|entityList| - 1]) + [EntityToDto(entityList[|entityList| - 1])]
  }

  /** A DTO comes back from storage unchanged except for its address. */
  lemma DtoRoundTrip(dto: Recommendation)
    ensures EntityToDto(DtoToEntity(dto)) == dto.(serviceAddress := None)
  {
  }

  /** The address of every element is dropped. */
  function WithoutAddresses(dtoList: seq<Recommendation>): (r: seq<Recommendation>)
    ensures |r| == |dtoList|
  {
    if dtoList == [] then []
    else WithoutAddresses(dtoList[..|dtoList| - 1]) + [dtoList[|dtoList| - 1].(serviceAddress := None)]
  }

  /** A list comes back from storage element by element unchanged except
      that every address is dropped; a list without addresses comes back
      as it was. */
  lemma {:induction false} DtoListRoundTrip(dtoList: seq<Recommendation>)
    ensures EntityListToDtoList(DtoListToEntityList(dtoList)) == WithoutAddresses(dtoList)
    ensures (forall i :: 0 <= i < |dtoList| ==> dtoList[i].serviceAddress == None) ==>
              EntityListToDtoList(DtoListToEntityList(dtoList)) == dtoList
  {
    if dtoList != [] {
      var init := dtoList[..|dtoList| - 1];
      var last := dtoList[|dtoList| - 1];
      DtoListRoundTrip(init);
      assert DtoListToEntityList(dtoList) == DtoListToEntityList(init) + [DtoToEntity(last)];
      assert DtoListToEntityList(dtoList)[..|dtoList| - 1] == DtoListToEntityList(init);
      DtoRoundTrip(last);
      if forall i :: 0 <= i < |dtoList| ==> dtoList[i].serviceAddress == None {
        assert dtoList == init + [last];
      }
    }
  }
}
